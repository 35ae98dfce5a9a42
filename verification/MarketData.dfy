/** The rolling 24-hour market data of the trade pairs: a per-block bucket of volume and price range,
    and running aggregates that the block hooks keep up to date. */
module MarketData {
  import opened Base
  import opened Words

  /** One executed trade, as the market data sees it. */
  datatype Tick = Tick(pair: PairId, block: nat, price: Price, amount: nat)

  datatype Bucket = Bucket(volume: nat, highest: Option<Price>, lowest: Option<Price>)

  const NO_TRADES := Bucket(0, None, None)

  datatype Stats = Stats(latest: Option<Price>, volume: nat, highest: Option<Price>, lowest: Option<Price>)

  // ---------- What the aggregates mean: plain sums and ranges over the trades of a run of blocks ----------

  predicate Within(t: Tick, pair: PairId, from: nat, to: nat) {
    t.pair == pair && from <= t.block < to
  }

  /** The volume of a pair in the blocks `from`, ..., `to - 1`. */
  function Volume(ticks: seq<Tick>, pair: PairId, from: nat, to: nat): nat {
    if ticks == [] then 0 else
      var t := ticks[|ticks| - 1];
      Volume(ticks[..|ticks| - 1], pair, from, to) + if Within(t, pair, from, to) then t.amount else 0
  }

  function Higher(a: Option<Price>, b: Option<Price>): Option<Price> {
    if a.None? then b else if b.None? || b.value <= a.value then a else b
  }

  function Lower(a: Option<Price>, b: Option<Price>): Option<Price> {
    if a.None? then b else if b.None? || a.value <= b.value then a else b
  }

  /** The highest price of a pair in the blocks `from`, ..., `to - 1`; none without a trade. */
  function High(ticks: seq<Tick>, pair: PairId, from: nat, to: nat): Option<Price> {
    if ticks == [] then None else
      var t := ticks[|ticks| - 1];
      Higher(High(ticks[..|ticks| - 1], pair, from, to), if Within(t, pair, from, to) then Some(t.price) else None)
  }

  function Low(ticks: seq<Tick>, pair: PairId, from: nat, to: nat): Option<Price> {
    if ticks == [] then None else
      var t := ticks[|ticks| - 1];
      Lower(Low(ticks[..|ticks| - 1], pair, from, to), if Within(t, pair, from, to) then Some(t.price) else None)
  }

  /** The high of some blocks is the largest price of the pair's trades in them, if there are any. */
  lemma {:induction false} HighIsLargest(ticks: seq<Tick>, pair: PairId, from: nat, to: nat)
    ensures var h := High(ticks, pair, from, to);
            && (h.None? <==> forall t <- ticks :: !Within(t, pair, from, to))
            && (h.Some? ==> exists t <- ticks :: Within(t, pair, from, to) && t.price == h.value)
            && (h.Some? ==> forall t <- ticks :: Within(t, pair, from, to) ==> t.price <= h.value)
  {
    if ticks != [] {
      HighIsLargest(ticks[..|ticks| - 1], pair, from, to);
      LastOf(ticks);
    }
  }

  /** And the low is the smallest one. */
  lemma {:induction false} LowIsSmallest(ticks: seq<Tick>, pair: PairId, from: nat, to: nat)
    ensures var l := Low(ticks, pair, from, to);
            && (l.None? <==> forall t <- ticks :: !Within(t, pair, from, to))
            && (l.Some? ==> exists t <- ticks :: Within(t, pair, from, to) && t.price == l.value)
            && (l.Some? ==> forall t <- ticks :: Within(t, pair, from, to) ==> l.value <= t.price)
  {
    if ticks != [] {
      LowIsSmallest(ticks[..|ticks| - 1], pair, from, to);
      LastOf(ticks);
    }
  }

  lemma LastOf(ticks: seq<Tick>)
    requires ticks != []
    ensures forall t :: t in ticks <==> t in ticks[..|ticks| - 1] || t == ticks[|ticks| - 1]
  {
    assert ticks == ticks[..|ticks| - 1] + [ticks[|ticks| - 1]];
  }

  /** The price of the pair's last trade. */
  function LastPrice(ticks: seq<Tick>, pair: PairId): Option<Price> {
    if ticks == [] then None
    else if ticks[|ticks| - 1].pair == pair then Some(ticks[|ticks| - 1].price)
    else LastPrice(ticks[..|ticks| - 1], pair)
  }

  lemma {:induction false} LastPriceIs(ticks: seq<Tick>, pair: PairId)
    ensures LastPrice(ticks, pair).None? <==> forall t <- ticks :: t.pair != pair
    ensures LastPrice(ticks, pair).Some? ==>
              exists i :: && 0 <= i < |ticks| && ticks[i].pair == pair && LastPrice(ticks, pair) == Some(ticks[i].price)
                          && forall j :: i < j < |ticks| ==> ticks[j].pair != pair
  {
    if ticks != [] {
      LastOf(ticks);
      var n := |ticks| - 1;
      LastPriceIs(ticks[..n], pair);
      if ticks[n].pair == pair {
        assert ticks[n].pair == pair && LastPrice(ticks, pair) == Some(ticks[n].price);
      } else if LastPrice(ticks, pair).Some? {
        var i :| && 0 <= i < n && ticks[..n][i].pair == pair && LastPrice(ticks[..n], pair) == Some(ticks[..n][i].price)
                 && forall j :: i < j < n ==> ticks[..n][j].pair != pair;
        assert ticks[i].pair == pair && LastPrice(ticks, pair) == Some(ticks[i].price);
        forall j | i < j < |ticks| ensures ticks[j].pair != pair {
          assert j < n ==> ticks[..n][j] == ticks[j];
        }
      }
    }
  }

  lemma {:induction false} RangeSplit(ticks: seq<Tick>, pair: PairId, from: nat, mid: nat, to: nat)
    requires from <= mid <= to
    ensures Volume(ticks, pair, from, to) == Volume(ticks, pair, from, mid) + Volume(ticks, pair, mid, to)
    ensures High(ticks, pair, from, to) == Higher(High(ticks, pair, from, mid), High(ticks, pair, mid, to))
    ensures Low(ticks, pair, from, to) == Lower(Low(ticks, pair, from, mid), Low(ticks, pair, mid, to))
  {
    if ticks != [] {
      RangeSplit(ticks[..|ticks| - 1], pair, from, mid, to);
    }
  }

  lemma {:induction false} NothingYet(ticks: seq<Tick>, pair: PairId, from: nat, to: nat)
    requires forall t <- ticks :: !Within(t, pair, from, to)
    ensures Volume(ticks, pair, from, to) == 0
    ensures High(ticks, pair, from, to) == None && Low(ticks, pair, from, to) == None
  {
    if ticks != [] {
      NothingYet(ticks[..|ticks| - 1], pair, from, to);
    }
  }

  lemma OneMore(ticks: seq<Tick>, t: Tick, pair: PairId, from: nat, to: nat)
    ensures Volume(ticks + [t], pair, from, to) ==
            Volume(ticks, pair, from, to) + if Within(t, pair, from, to) then t.amount else 0
    ensures High(ticks + [t], pair, from, to) ==
            Higher(High(ticks, pair, from, to), if Within(t, pair, from, to) then Some(t.price) else None)
    ensures Low(ticks + [t], pair, from, to) ==
            Lower(Low(ticks, pair, from, to), if Within(t, pair, from, to) then Some(t.price) else None)
  {
  }

  // ---------- The price vectors ----------

  function MaxOf(s: seq<Option<Price>>): Option<Price> {
    if s == [] then None else Higher(MaxOf(s[..|s| - 1]), s[|s| - 1])
  }

  function MinOf(s: seq<Option<Price>>): Option<Price> {
    if s == [] then None else Lower(MinOf(s[..|s| - 1]), s[|s| - 1])
  }

  /** The vectors hold the highs and lows of the blocks `first`, `first + 1`, ... one by one. */
  ghost predicate PerBlock(ticks: seq<Tick>, pair: PairId, first: nat,
                           highs: seq<Option<Price>>, lows: seq<Option<Price>>)
  {
    && |highs| == |lows|
    && (forall k :: 0 <= k < |highs| ==> highs[k] == High(ticks, pair, first + k, first + k + 1))
    && (forall k :: 0 <= k < |lows| ==> lows[k] == Low(ticks, pair, first + k, first + k + 1))
  }

  /** The extremes of the per-block highs and lows are those of the whole run of blocks. */
  lemma {:induction false} ExtremesOfRun(ticks: seq<Tick>, pair: PairId, first: nat,
                                         highs: seq<Option<Price>>, lows: seq<Option<Price>>)
    requires PerBlock(ticks, pair, first, highs, lows)
    ensures MaxOf(highs) == High(ticks, pair, first, first + |highs|)
    ensures MinOf(lows) == Low(ticks, pair, first, first + |lows|)
  {
    hide High, Low, Volume;
    if highs == [] {
      NothingYet(ticks, pair, first, first);
    } else {
      var n := |highs| - 1;
      ExtremesOfRun(ticks, pair, first, highs[..n], lows[..n]);
      RangeSplit(ticks, pair, first, first + n, first + n + 1);
    }
  }

  // ---------- The windows ----------

  /** The first of the last `BLOCKS_PER_DAY` blocks up to block `n`; blocks are numbered from 1. */
  function DayStart(n: nat): nat {
    if n <= BLOCKS_PER_DAY then 1 else n + 1 - BLOCKS_PER_DAY
  }

  /** A day is `BLOCKS_PER_DAY` blocks long, or as long as the chain if that is younger. */
  lemma DayIs(n: nat)
    requires 1 <= n
    ensures 1 <= DayStart(n) <= n && n + 1 - DayStart(n) == if n <= BLOCKS_PER_DAY then n else BLOCKS_PER_DAY
  {
  }

  /** How many blocks the price vectors of a pair born in block `born` cover after block `n`. */
  function CoveredBlocks(born: nat, n: nat): nat {
    if n < born then 0
    else if n <= BLOCKS_PER_DAY then n + 1 - born
    else if born <= BLOCKS_PER_DAY then BLOCKS_PER_DAY + 1 - born
    else 1
  }

  /** The vectors cover a pair's last day, or its whole life if that is shorter, exactly up to the end
      of the chain's first day, and afterwards only for pairs born in block 1, in the block at hand, or
      with one-block days: `on_initialize` drops an element even while the vectors are not full. */
  lemma CoverageExact(born: nat, n: nat)
    requires 1 <= born <= n
    ensures CoveredBlocks(born, n) <= BLOCKS_PER_DAY
    ensures CoveredBlocks(born, n) == (if n + 1 - born <= BLOCKS_PER_DAY then n + 1 - born else BLOCKS_PER_DAY)
            <==> n <= BLOCKS_PER_DAY || born == 1 || born == n || BLOCKS_PER_DAY == 1
  {
  }

  type Vectors = (seq<Option<Price>>, seq<Option<Price>>)

  /** The aggregates of a pair once block `n` is finalized: the volume of the last day, and the price
      range of the blocks that the vectors cover. */
  ghost predicate Rolled(ticks: seq<Tick>, pair: PairId, born: nat, n: nat, s: Stats, v: Vectors) {
    && 1 <= born <= n
    && var first := n + 1 - CoveredBlocks(born, n);
       && s.volume == Wrap(Volume(ticks, pair, DayStart(n), n + 1))
       && |v.0| == CoveredBlocks(born, n) && PerBlock(ticks, pair, first, v.0, v.1)
       && s.highest == High(ticks, pair, first, n + 1)
       && s.lowest == Low(ticks, pair, first, n + 1)
  }

  /** The aggregates while block `n` executes: what it contributes is still missing. */
  ghost predicate Rolling(ticks: seq<Tick>, pair: PairId, born: nat, n: nat, s: Stats, v: Vectors) {
    && 1 <= born <= n
    && s.volume == Wrap(Volume(ticks, pair, DayStart(n), n))
    && |v.0| == CoveredBlocks(born, n) - 1 && PerBlock(ticks, pair, n + 1 - CoveredBlocks(born, n), v.0, v.1)
  }

  function DropFirst<T>(s: seq<T>): seq<T> {
    if s == [] then s else s[1..]
  }

  /** Opening block `n` of a later day: the day's first block is taken off. What is stored of it is no more than
      what is stored of the day if and only if it can be added to what is stored of the rest. */
  lemma OpenPair(ticks: seq<Tick>, pair: PairId, born: nat, n: nat, s: Stats, v: Vectors)
    requires Rolled(ticks, pair, born, n, s, v)
    ensures n + 1 <= BLOCKS_PER_DAY ==> Rolling(ticks, pair, born, n + 1, s, v)
    ensures n + 1 > BLOCKS_PER_DAY ==>
              var oldest := n + 1 - BLOCKS_PER_DAY;
              var out := Wrap(Volume(ticks, pair, oldest, oldest + 1));
              var left := Wrap(Volume(ticks, pair, oldest + 1, n + 1));
              && (out <= s.volume <==> out + left <= U128_MAX)
              && Rolling(ticks, pair, born, n + 1, s.(volume := WrappingSub(s.volume, out)),
                         (DropFirst(v.0), DropFirst(v.1)))
  {
    hide Wrap;
    if n + 1 > BLOCKS_PER_DAY {
      var oldest := n + 1 - BLOCKS_PER_DAY;
      RangeSplit(ticks, pair, DayStart(n), oldest + 1, n + 1);
      var out, left := Volume(ticks, pair, oldest, oldest + 1), Volume(ticks, pair, oldest + 1, n + 1);
      WrapBoth(out + left, out);
      WrapCovers(out, left);
    }
  }

  /** Finalizing block `n` adds what it contributed. */
  lemma ClosePair(ticks: seq<Tick>, pair: PairId, born: nat, n: nat, s: Stats, v: Vectors, b: Bucket)
    requires Rolling(ticks, pair, born, n, s, v)
    requires b == Bucket(Wrap(Volume(ticks, pair, n, n + 1)), High(ticks, pair, n, n + 1), Low(ticks, pair, n, n + 1))
    ensures var v' := (v.0 + [b.highest], v.1 + [b.lowest]);
            Rolled(ticks, pair, born, n,
              s.(volume := WrappingAdd(s.volume, b.volume), highest := MaxOf(v'.0), lowest := MinOf(v'.1)), v')
  {
    hide High, Low, Volume, MaxOf, MinOf, Wrap;
    var v' := (v.0 + [b.highest], v.1 + [b.lowest]);
    RangeSplit(ticks, pair, DayStart(n), n, n + 1);
    WrapBoth(Volume(ticks, pair, DayStart(n), n), Volume(ticks, pair, n, n + 1));
    ExtremesOfRun(ticks, pair, n + 1 - CoveredBlocks(born, n), v'.0, v'.1);
  }

  /** A `u128` stores a volume modulo 2^128, exactly if and only if it fits. */
  ghost predicate VolumeIs(stored: nat, volume: nat) {
    stored == volume % TWO_TO_128 && (stored == volume <==> volume <= U128_MAX)
  }

  lemma RolledFacts(ticks: seq<Tick>, pair: PairId, born: nat, n: nat, s: Stats, v: Vectors)
    requires Rolled(ticks, pair, born, n, s, v)
    ensures VolumeIs(s.volume, Volume(ticks, pair, DayStart(n), n + 1))
    ensures var first := n + 1 - CoveredBlocks(born, n);
            1 <= first && s.highest == High(ticks, pair, first, n + 1) && s.lowest == Low(ticks, pair, first, n + 1)
  {
    WrapIsRemainder(Volume(ticks, pair, DayStart(n), n + 1));
  }

  /** A trade in the block at hand does not touch the aggregates of earlier blocks. */
  lemma TickLater(ticks: seq<Tick>, t: Tick, pair: PairId, born: nat, n: nat, s: Stats, v: Vectors)
    requires Rolling(ticks, pair, born, n, s, v) && t.block == n
    ensures Rolling(ticks + [t], pair, born, n, s, v)
  {
  }

  lemma RollingFacts(ticks: seq<Tick>, pair: PairId, born: nat, n: nat, s: Stats, v: Vectors, latest: Option<Price>)
    requires Rolling(ticks, pair, born, n, s, v)
    ensures 1 <= born <= n && Rolling(ticks, pair, born, n, s.(latest := latest), v)
  {
  }

  /** A pair that is created in block `n` has an empty past. */
  lemma NewPair(ticks: seq<Tick>, pair: PairId, n: nat)
    requires 1 <= n && forall t <- ticks :: t.pair != pair
    ensures Rolling(ticks, pair, n, n, Stats(None, 0, None, None), ([], []))
  {
    NothingYet(ticks, pair, DayStart(n), n);
  }

  lemma BlockVolume(ticks: seq<Tick>, pair: PairId, block: nat)
    ensures OfBlock(ticks, pair, block).volume == Wrap(Volume(ticks, pair, block, block + 1))
  {
  }

  /** Prices are proper, so the sentinels that the hooks start from are never mistaken for one. */
  lemma {:induction false} RangeProper(ticks: seq<Tick>, pair: PairId, from: nat, to: nat)
    requires forall t <- ticks :: 0 < t.price < U128_MAX
    ensures High(ticks, pair, from, to).None? || 0 < High(ticks, pair, from, to).value
    ensures Low(ticks, pair, from, to).None? || Low(ticks, pair, from, to).value < U128_MAX
  {
    if ticks != [] {
      RangeProper(ticks[..|ticks| - 1], pair, from, to);
    }
  }

  lemma VectorsProper(ticks: seq<Tick>, pair: PairId, born: nat, n: nat, s: Stats, v: Vectors)
    requires Rolling(ticks, pair, born, n, s, v)
    requires forall t <- ticks :: 0 < t.price < U128_MAX
    ensures forall k :: 0 <= k < |v.0| ==> v.0[k].None? || 0 < v.0[k].value
    ensures forall k :: 0 <= k < |v.1| ==> v.1[k].None? || v.1[k].value < U128_MAX
  {
    var first := n + 1 - CoveredBlocks(born, n);
    forall k | 0 <= k < |v.0|
      ensures (v.0[k].None? || 0 < v.0[k].value) && (v.1[k].None? || v.1[k].value < U128_MAX)
    {
      RangeProper(ticks, pair, first + k, first + k + 1);
    }
  }

  lemma ClosePairProperly(ticks: seq<Tick>, pair: PairId, born: nat, n: nat, s: Stats, v: Vectors, b: Bucket)
    requires Rolling(ticks, pair, born, n, s, v)
    requires forall t <- ticks :: 0 < t.price < U128_MAX
    requires b == OfBlock(ticks, pair, n)
    ensures forall k :: 0 <= k < |v.0| ==> v.0[k].None? || 0 < v.0[k].value
    ensures forall k :: 0 <= k < |v.1| ==> v.1[k].None? || v.1[k].value < U128_MAX
    ensures b.highest.None? || 0 < b.highest.value
    ensures b.lowest.None? || b.lowest.value < U128_MAX
    ensures var v' := (v.0 + [b.highest], v.1 + [b.lowest]);
            Rolled(ticks, pair, born, n,
              s.(volume := WrappingAdd(s.volume, b.volume), highest := MaxOf(v'.0), lowest := MinOf(v'.1)), v')
  {
    hide Rolled, Rolling;
    ClosePair(ticks, pair, born, n, s, v, b);
    VectorsProper(ticks, pair, born, n, s, v);
    RangeProper(ticks, pair, n, n + 1);
  }

  // ---------- The storage and the hooks ----------

  function OfBlock(ticks: seq<Tick>, pair: PairId, block: nat): Bucket {
    Bucket(Wrap(Volume(ticks, pair, block, block + 1)),
           High(ticks, pair, block, block + 1),
           Low(ticks, pair, block, block + 1))
  }

  function GetBucket(buckets: map<(PairId, nat), Bucket>, pair: PairId, block: nat): Bucket {
    if (pair, block) in buckets then buckets[(pair, block)] else NO_TRADES
  }

  function AddTick(b: Bucket, price: Price, amount: nat): Bucket {
    Bucket(WrappingAdd(b.volume, amount), Higher(b.highest, Some(price)), Lower(b.lowest, Some(price)))
  }

  function GetVectors(v: map<PairId, Vectors>, pair: PairId): Vectors {
    if pair in v then v[pair] else ([], [])
  }

  lemma OneMoreBucket(ticks: seq<Tick>, t: Tick, pair: PairId, block: nat)
    ensures OfBlock(ticks + [t], pair, block) ==
            if t.pair == pair && t.block == block then AddTick(OfBlock(ticks, pair, block), t.price, t.amount)
            else OfBlock(ticks, pair, block)
  {
    hide Volume, High, Low, Wrap;
    OneMore(ticks, t, pair, block, block + 1);
    WrapExact(Volume(ticks, pair, block, block + 1), t.amount);
  }

  class Market {
    var tradePairs: map<PairId, Stats>
    var pairIndex: seq<PairId>
    var dataBuckets: map<(PairId, nat), Bucket>
    var priceBuckets: map<PairId, Vectors>
    var blockNumber: nat

    ghost var ticks: seq<Tick>
    ghost var born: map<PairId, nat>
    ghost var executing: bool

    /** Every trade so far is one of a known pair, in a block of its life, at a proper price. */
    ghost predicate TicksOk()
      reads this`ticks, this`born, this`blockNumber
    {
      forall t <- ticks :: t.pair in born && born[t.pair] <= t.block <= blockNumber && 0 < t.price < U128_MAX
    }

    ghost predicate BucketsOk()
      reads this`dataBuckets, this`ticks
    {
      forall p: PairId, b: nat :: GetBucket(dataBuckets, p, b) == OfBlock(ticks, p, b)
    }

    /** The index lists every pair once. */
    ghost predicate IndexOk()
      reads this`born, this`pairIndex
    {
      && (forall p <- born.Keys :: p in pairIndex)
      && (forall i :: 0 <= i < |pairIndex| ==> pairIndex[i] in born)
      && (forall i, j :: 0 <= i < j < |pairIndex| ==> pairIndex[i] != pairIndex[j])
    }

    ghost predicate KeysOk()
      reads this
    {
      tradePairs.Keys == born.Keys && priceBuckets.Keys <= born.Keys
    }

    /** Every pair shows the price of its last trade. */
    ghost predicate LatestOk()
      reads this`tradePairs, this`ticks
    {
      forall p <- tradePairs.Keys :: tradePairs[p].latest == LastPrice(ticks, p)
    }

    /** A pair's aggregates are those of the finalized block `n`. */
    ghost predicate RolledAt(p: PairId, n: nat)
      reads this
    {
      && p in tradePairs && p in born
      && Rolled(ticks, p, born[p], n, tradePairs[p], GetVectors(priceBuckets, p))
    }

    /** A pair's aggregates are those that block `n` starts from. */
    ghost predicate RollingAt(p: PairId, n: nat)
      reads this
    {
      && p in tradePairs && p in born
      && Rolling(ticks, p, born[p], n, tradePairs[p], GetVectors(priceBuckets, p))
    }

    /** The aggregates of every pair are right for the block at hand: as of its start while it
        executes, and including it once it is finalized. */
    ghost predicate Valid()
      reads this
    {
      && TicksOk() && BucketsOk() && IndexOk() && KeysOk() && LatestOk()
      && (executing ==> 1 <= blockNumber)
      && (forall p <- born.Keys :: if executing then RollingAt(p, blockNumber) else RolledAt(p, blockNumber))
    }

    constructor ()
      ensures Valid() && !executing && blockNumber == 0 && tradePairs == map[] && ticks == []
    {
      tradePairs, pairIndex, dataBuckets, priceBuckets, blockNumber := map[], [], map[], map[], 0;
      ticks, born, executing := [], map[], false;
    }

    method AddPair(p: PairId)
      requires Valid() && executing && p !in tradePairs
      modifies this
      ensures Valid() && executing && blockNumber == old(blockNumber) && ticks == old(ticks)
      ensures tradePairs == old(tradePairs)[p := Stats(None, 0, None, None)]
    {
      hide Rolling, Rolled, OfBlock;
      NewPair(ticks, p, blockNumber);
      LastPriceIs(ticks, p);
      tradePairs := tradePairs[p := Stats(None, 0, None, None)];
      pairIndex := pairIndex + [p];
      born := born[p := blockNumber];
    }

    /** Records one trade of the block at hand. */
    method SetTpMarketData(p: PairId, price: Price, amount: nat) returns (r: Result<()>)
      requires Valid() && executing && 0 < price < U128_MAX
      modifies this
      ensures p in old(tradePairs) ==>
                && r.Ok? && Valid() && ticks == old(ticks) + [Tick(p, blockNumber, price, amount)]
                && tradePairs == old(tradePairs)[p := old(tradePairs)[p].(latest := Some(price))]
                && dataBuckets == old(dataBuckets)[(p, blockNumber) :=
                     AddTick(GetBucket(old(dataBuckets), p, blockNumber), price, amount)]
      ensures p !in old(tradePairs) ==>
                && r == Err(NoMatchingTradePair) && Valid() && ticks == old(ticks)
                && tradePairs == old(tradePairs)
      ensures executing && blockNumber == old(blockNumber)
    {
      r := Ok(());
      hide Rolling, Rolled;
      :- Ensure(p in tradePairs, NoMatchingTradePair);
      assert RollingAt(p, blockNumber);
      RollingFacts(ticks, p, born[p], blockNumber, tradePairs[p], GetVectors(priceBuckets, p), Some(price));
      tradePairs := tradePairs[p := tradePairs[p].(latest := Some(price))];
      var bucket := GetBucket(dataBuckets, p, blockNumber);
      bucket := Updated(bucket, price, amount);
      dataBuckets := dataBuckets[(p, blockNumber) := bucket];
      LogTick(p, price, amount, old(dataBuckets));
    }

    static method Updated(bucket: Bucket, price: Price, amount: nat) returns (b: Bucket)
      ensures b == AddTick(bucket, price, amount)
    {
      b := bucket;
      b := b.(volume := WrappingAdd(b.volume, amount));
      match b.highest {
        case Some(high) =>
          if price > high {
            b := b.(highest := Some(price));
          }
        case None =>
          b := b.(highest := Some(price));
      }
      match b.lowest {
        case Some(low) =>
          if price < low {
            b := b.(lowest := Some(price));
          }
        case None =>
          b := b.(lowest := Some(price));
      }
    }

    /** Adds a trade to the log that the buckets and aggregates are measured against. */
    ghost method LogTick(p: PairId, price: Price, amount: nat, buckets: map<(PairId, nat), Bucket>)
      requires TicksOk() && IndexOk() && executing && 1 <= blockNumber && p in tradePairs && 0 < price < U128_MAX
      requires forall q: PairId, b: nat :: GetBucket(buckets, q, b) == OfBlock(ticks, q, b)
      requires dataBuckets == buckets[(p, blockNumber) := AddTick(GetBucket(buckets, p, blockNumber), price, amount)]
      requires KeysOk() && forall q <- born.Keys :: RollingAt(q, blockNumber)
      requires forall q <- tradePairs.Keys ::
                 tradePairs[q].latest == if q == p then Some(price) else LastPrice(ticks, q)
      modifies this`ticks
      ensures Valid() && ticks == old(ticks) + [Tick(p, blockNumber, price, amount)]
    {
      hide Rolling, Volume, High, Low, Wrap;
      var t := Tick(p, blockNumber, price, amount);
      assert RollingAt(p, blockNumber);
      RollingFacts(ticks, p, born[p], blockNumber, tradePairs[p], GetVectors(priceBuckets, p), None);
      forall q <- born.Keys
        ensures Rolling(ticks + [t], q, born[q], blockNumber, tradePairs[q], GetVectors(priceBuckets, q))
      {
        assert RollingAt(q, blockNumber);
        TickLater(ticks, t, q, born[q], blockNumber, tradePairs[q], GetVectors(priceBuckets, q));
      }
      forall q: PairId, b: nat ensures GetBucket(dataBuckets, q, b) == OfBlock(ticks + [t], q, b) {
        OneMoreBucket(ticks, t, q, b);
        assert GetBucket(buckets, q, b) == OfBlock(ticks, q, b);
      }
      ticks := ticks + [t];
    }

    /** Takes the oldest block of the previous day out of one pair's aggregates. */
    method OpenOne(p: PairId, n: nat)
      requires BucketsOk() && KeysOk() && LatestOk() && RolledAt(p, n) && n + 1 > BLOCKS_PER_DAY
      modifies this`tradePairs, this`priceBuckets
      ensures KeysOk() && LatestOk() && RollingAt(p, n + 1)
      ensures forall q <- born.Keys :: q != p && old(RolledAt(q, n)) ==> RolledAt(q, n)
      ensures forall q <- born.Keys :: q != p && old(RollingAt(q, n + 1)) ==> RollingAt(q, n + 1)
    {
      hide Rolled, Rolling, OfBlock;
      OpenPair(ticks, p, born[p], n, tradePairs[p], GetVectors(priceBuckets, p));
      var tp := tradePairs[p];
      var bucket := GetBucket(dataBuckets, p, n + 1 - BLOCKS_PER_DAY);
      assert bucket.volume == Wrap(Volume(ticks, p, n + 1 - BLOCKS_PER_DAY, n + 2 - BLOCKS_PER_DAY)) by {
        assert bucket == OfBlock(ticks, p, n + 1 - BLOCKS_PER_DAY);
        BlockVolume(ticks, p, n + 1 - BLOCKS_PER_DAY);
      }
      tp := tp.(volume := WrappingSub(tp.volume, bucket.volume));
      tradePairs := tradePairs[p := tp];
      var (highs, lows) := GetVectors(priceBuckets, p);
      if |highs| > 0 {
        highs := highs[1..];
      }
      if |lows| > 0 {
        lows := lows[1..];
      }
      priceBuckets := priceBuckets[p := (highs, lows)];
    }

    method OpenAll(n: nat)
      requires BucketsOk() && IndexOk() && KeysOk() && LatestOk() && n > BLOCKS_PER_DAY
      requires forall j :: 0 <= j < |pairIndex| ==> RolledAt(pairIndex[j], n - 1)
      modifies this`tradePairs, this`priceBuckets
      ensures KeysOk() && LatestOk() && forall j :: 0 <= j < |pairIndex| ==> RollingAt(pairIndex[j], n)
    {
      hide RolledAt, RollingAt, BucketsOk;
      var i := 0;
      while i < |pairIndex|
        invariant 0 <= i <= |pairIndex|
        invariant IndexOk() && BucketsOk() && KeysOk() && LatestOk()
        invariant forall j :: 0 <= j < i ==> RollingAt(pairIndex[j], n)
        invariant forall j :: i <= j < |pairIndex| ==> RolledAt(pairIndex[j], n - 1)
        modifies this`tradePairs, this`priceBuckets
      {
        OpenOne(pairIndex[i], n - 1);
        i := i + 1;
      }
    }

    /** Runs before the calls of block `n`. */
    method OnInitialize(n: nat)
      requires Valid() && !executing && n == blockNumber + 1
      modifies this
      ensures Valid() && executing && blockNumber == n && ticks == old(ticks) && tradePairs.Keys == old(tradePairs.Keys)
      ensures forall p <- tradePairs.Keys :: tradePairs[p].latest == old(tradePairs)[p].latest == LastPrice(ticks, p)
    {
      if n <= BLOCKS_PER_DAY {
        FirstDay(n);
        return;
      }
      OpenAll(n);
      StartBlock(n);
    }

    /** No block is old enough to be taken out during the first day. */
    method FirstDay(n: nat)
      requires Valid() && !executing && n == blockNumber + 1 && n <= BLOCKS_PER_DAY
      modifies this`blockNumber, this`executing
      ensures Valid() && executing && blockNumber == n
    {
      hide BucketsOk, Rolled, Rolling;
      forall p <- born.Keys ensures RollingAt(p, n) {
        assert RolledAt(p, blockNumber);
        OpenPair(ticks, p, born[p], blockNumber, tradePairs[p], GetVectors(priceBuckets, p));
      }
      StartBlock(n);
    }

    /** The system enters block `n`. */
    method StartBlock(n: nat)
      requires TicksOk() && BucketsOk() && IndexOk() && KeysOk() && LatestOk() && !executing && n == blockNumber + 1
      requires forall j :: 0 <= j < |pairIndex| ==> RollingAt(pairIndex[j], n)
      modifies this`blockNumber, this`executing
      ensures Valid() && executing && blockNumber == n
    {
      hide Rolling, BucketsOk;
      blockNumber, executing := n, true;
    }

    static method HighestOf(highs: seq<Option<Price>>) returns (h: Price)
      requires forall k :: 0 <= k < |highs| ==> highs[k].None? || 0 < highs[k].value
      ensures MaxOf(highs) == if h != 0 then Some(h) else None
      ensures h == 0 <==> forall k :: 0 <= k < |highs| ==> highs[k].None?
      ensures h != 0 ==> Some(h) in highs
      ensures forall k :: 0 <= k < |highs| && highs[k].Some? ==> highs[k].value <= h
    {
      h := 0;
      for k := 0 to |highs|
        invariant MaxOf(highs[..k]) == if h != 0 then Some(h) else None
        invariant h == 0 <==> forall j :: 0 <= j < k ==> highs[j].None?
        invariant h != 0 ==> Some(h) in highs
        invariant forall j :: 0 <= j < k && highs[j].Some? ==> highs[j].value <= h
      {
        assert highs[..k + 1][..k] == highs[..k];
        if highs[k].Some? && highs[k].value > h {
          h := highs[k].value;
        }
      }
      assert highs[..|highs|] == highs;
    }

    static method LowestOf(lows: seq<Option<Price>>) returns (l: Price)
      requires forall k :: 0 <= k < |lows| ==> lows[k].None? || lows[k].value < U128_MAX
      ensures MinOf(lows) == if l != U128_MAX then Some(l) else None
      ensures l == U128_MAX <==> forall k :: 0 <= k < |lows| ==> lows[k].None?
      ensures l != U128_MAX ==> Some(l) in lows
      ensures forall k :: 0 <= k < |lows| && lows[k].Some? ==> l <= lows[k].value
    {
      l := U128_MAX;
      for k := 0 to |lows|
        invariant l <= U128_MAX && MinOf(lows[..k]) == if l != U128_MAX then Some(l) else None
        invariant l == U128_MAX <==> forall j :: 0 <= j < k ==> lows[j].None?
        invariant l != U128_MAX ==> Some(l) in lows
        invariant forall j :: 0 <= j < k && lows[j].Some? ==> l <= lows[j].value
      {
        assert lows[..k + 1][..k] == lows[..k];
        if lows[k].Some? && lows[k].value < l {
          l := lows[k].value;
        }
      }
      assert lows[..|lows|] == lows;
    }

    /** A pair's aggregates and vectors with one more block. */
    static method Extended(stats: Stats, v: Vectors, bucket: Bucket) returns (tp: Stats, v': Vectors)
      requires forall k :: 0 <= k < |v.0| ==> v.0[k].None? || 0 < v.0[k].value
      requires forall k :: 0 <= k < |v.1| ==> v.1[k].None? || v.1[k].value < U128_MAX
      requires bucket.highest.None? || 0 < bucket.highest.value
      requires bucket.lowest.None? || bucket.lowest.value < U128_MAX
      ensures v' == (v.0 + [bucket.highest], v.1 + [bucket.lowest])
      ensures tp == stats.(volume := WrappingAdd(stats.volume, bucket.volume),
                           highest := MaxOf(v'.0), lowest := MinOf(v'.1))
    {
      var (highs, lows) := v;
      highs := highs + [bucket.highest];
      lows := lows + [bucket.lowest];
      var h := HighestOf(highs);
      var l := LowestOf(lows);
      tp := stats.(volume := WrappingAdd(stats.volume, bucket.volume));
      tp := tp.(highest := if h != 0 then Some(h) else None);
      tp := tp.(lowest := if l != U128_MAX then Some(l) else None);
      v' := (highs, lows);
    }

    /** Adds the block at hand to one pair's aggregates. */
    method CloseOne(p: PairId)
      requires BucketsOk() && TicksOk() && KeysOk() && LatestOk() && RollingAt(p, blockNumber)
      modifies this`tradePairs, this`priceBuckets
      ensures KeysOk() && LatestOk() && RolledAt(p, blockNumber)
      ensures forall q <- born.Keys :: q != p && old(RollingAt(q, blockNumber)) ==> RollingAt(q, blockNumber)
      ensures forall q <- born.Keys :: q != p && old(RolledAt(q, blockNumber)) ==> RolledAt(q, blockNumber)
    {
      hide Rolled, Rolling, OfBlock, High, Low, Volume, MaxOf, MinOf;
      var tp := tradePairs[p];
      var bucket := GetBucket(dataBuckets, p, blockNumber);
      var vectors := GetVectors(priceBuckets, p);
      assert bucket == OfBlock(ticks, p, blockNumber);
      ClosePairProperly(ticks, p, born[p], blockNumber, tp, vectors, bucket);
      tp, vectors := Extended(tp, vectors, bucket);
      priceBuckets := priceBuckets[p := vectors];
      tradePairs := tradePairs[p := tp];
    }

    method CloseAll()
      requires TicksOk() && BucketsOk() && IndexOk() && KeysOk() && LatestOk()
      requires forall j :: 0 <= j < |pairIndex| ==> RollingAt(pairIndex[j], blockNumber)
      modifies this`tradePairs, this`priceBuckets
      ensures KeysOk() && LatestOk() && forall j :: 0 <= j < |pairIndex| ==> RolledAt(pairIndex[j], blockNumber)
    {
      hide RolledAt, RollingAt, BucketsOk;
      var i := 0;
      while i < |pairIndex|
        invariant 0 <= i <= |pairIndex|
        invariant IndexOk() && BucketsOk() && KeysOk() && LatestOk()
        invariant forall j :: 0 <= j < i ==> RolledAt(pairIndex[j], blockNumber)
        invariant forall j :: i <= j < |pairIndex| ==> RollingAt(pairIndex[j], blockNumber)
        modifies this`tradePairs, this`priceBuckets
      {
        CloseOne(pairIndex[i]);
        i := i + 1;
      }
    }

    /** Runs after the calls of the block at hand. */
    method OnFinalize()
      requires Valid() && executing
      modifies this
      ensures Valid() && !executing && blockNumber == old(blockNumber) && ticks == old(ticks)
      ensures tradePairs.Keys == old(tradePairs.Keys)
      ensures forall p <- tradePairs.Keys ::
                && p in born && VolumeIs(tradePairs[p].volume, Volume(ticks, p, DayStart(blockNumber), blockNumber + 1))
                && var first := blockNumber + 1 - CoveredBlocks(born[p], blockNumber);
                   && 1 <= first
                   && tradePairs[p].highest == High(ticks, p, first, blockNumber + 1)
                   && tradePairs[p].lowest == Low(ticks, p, first, blockNumber + 1)
      ensures forall p <- tradePairs.Keys :: tradePairs[p].latest == old(tradePairs)[p].latest == LastPrice(ticks, p)
    {
      CloseAll();
      FinishBlock();
    }

    ghost method FinishBlock()
      requires TicksOk() && BucketsOk() && IndexOk() && KeysOk() && LatestOk() && executing
      requires forall j :: 0 <= j < |pairIndex| ==> RolledAt(pairIndex[j], blockNumber)
      modifies this`executing
      ensures Valid() && !executing
      ensures forall p <- tradePairs.Keys ::
                && p in born && VolumeIs(tradePairs[p].volume, Volume(ticks, p, DayStart(blockNumber), blockNumber + 1))
                && var first := blockNumber + 1 - CoveredBlocks(born[p], blockNumber);
                   && 1 <= first
                   && tradePairs[p].highest == High(ticks, p, first, blockNumber + 1)
                   && tradePairs[p].lowest == Low(ticks, p, first, blockNumber + 1)
    {
      hide BucketsOk, Rolled, DayStart, CoveredBlocks, High, Low, Volume, VolumeIs;
      executing := false;
      forall p <- born.Keys
        ensures RolledAt(p, blockNumber)
        ensures VolumeIs(tradePairs[p].volume, Volume(ticks, p, DayStart(blockNumber), blockNumber + 1))
        ensures var first := blockNumber + 1 - CoveredBlocks(born[p], blockNumber);
                && 1 <= first
                && tradePairs[p].highest == High(ticks, p, first, blockNumber + 1)
                && tradePairs[p].lowest == Low(ticks, p, first, blockNumber + 1)
      {
        assert RolledAt(p, blockNumber);
        RolledFacts(ticks, p, born[p], blockNumber, tradePairs[p], GetVectors(priceBuckets, p));
      }
    }
  }
}
