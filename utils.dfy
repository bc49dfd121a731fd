/** The pure helpers of `lib/utils.ts`: chart-row conversion, relative price change and
    coin sorting. */
module Utils {
  import opened Wrappers
  import opened Seqs
  import opened CoinTypes

  // ---- preprocessChartData ----

  /** One Binance kline row, its entries already parsed as numbers. */
  type KlineRow = seq<real>

  /** `ChartData`. An entry the row does not have reads as absent (`NaN` in the source). */
  datatype ChartPoint = ChartPoint(
    time: Option<real>,
    open: Option<real>,
    high: Option<real>,
    low: Option<real>,
    close: Option<real>,
    volume: Option<real>)

  function Entry(row: KlineRow, i: nat): (r: Option<real>)
    ensures r.Some? <==> i < |row|
    ensures r.Some? ==> r.value == row[i]
  {
    if i < |row| then Some(row[i]) else None
  }

  function ToPoint(row: KlineRow): ChartPoint {
    var t := Entry(row, 0);
    ChartPoint(if t.Some? then Some(t.value / 1000.0) else None,
               Entry(row, 1), Entry(row, 2), Entry(row, 3), Entry(row, 4), Entry(row, 5))
  }

  /** `preprocessChartData`: one point per row, in row order; time is the open time in seconds. */
  function PreprocessChartData(raw: seq<KlineRow>): (r: seq<ChartPoint>)
    ensures |r| == |raw|
    ensures forall i :: 0 <= i < |raw| && |raw[i]| >= 6 ==>
      r[i].time == Some(raw[i][0] / 1000.0) && r[i].open == Some(raw[i][1])
      && r[i].high == Some(raw[i][2]) && r[i].low == Some(raw[i][3])
      && r[i].close == Some(raw[i][4]) && r[i].volume == Some(raw[i][5])
    // a short row leaves the fields it lacks absent (`NaN`)
    ensures forall i :: 0 <= i < |raw| ==>
      (r[i].time.None? <==> |raw[i]| == 0) && (r[i].open.None? <==> |raw[i]| <= 1)
      && (r[i].high.None? <==> |raw[i]| <= 2) && (r[i].low.None? <==> |raw[i]| <= 3)
      && (r[i].close.None? <==> |raw[i]| <= 4) && (r[i].volume.None? <==> |raw[i]| <= 5)
  {
    if raw == [] then [] else [ToPoint(raw[0])] + PreprocessChartData(raw[1..])
  }

  lemma {:induction false} PreprocessConcat(a: seq<KlineRow>, b: seq<KlineRow>)
    ensures PreprocessChartData(a + b) == PreprocessChartData(a) + PreprocessChartData(b)
  {
    if a == [] {
      assert a + b == b;
    } else {
      assert (a + b)[1..] == a[1..] + b;
      PreprocessConcat(a[1..], b);
    }
  }

  // ---- calculatePriceChange ----

  /** `calculatePriceChange`: the change relative to `previous`; absent when `previous` is 0
      (the source then yields a non-finite number). */
  function CalculatePriceChange(current: real, previous: real): (r: Option<real>)
    ensures r.Some? <==> previous != 0.0
    ensures r.Some? ==> r.value * previous == current - previous
  {
    if previous == 0.0 then None else Some((current - previous) / previous)
  }

  lemma PriceChangeSign(current: real, previous: real)
    requires previous > 0.0
    ensures CalculatePriceChange(current, previous).Some?
    ensures CalculatePriceChange(current, previous).value > 0.0 <==> current > previous
    ensures CalculatePriceChange(current, previous).value < 0.0 <==> current < previous
    ensures CalculatePriceChange(current, previous).value == 0.0 <==> current == previous
  {
    var r := CalculatePriceChange(current, previous).value;
    assert r * previous == current - previous;
    if r > 0.0 { assert r * previous > 0.0; }
    if r < 0.0 { assert r * previous < 0.0; }
    if r == 0.0 { assert r * previous == 0.0; }
  }

  lemma PriceChangeUnchanged(price: real)
    requires price != 0.0
    ensures CalculatePriceChange(price, price) == Some(0.0)
  {
  }

  // ---- sortCoins ----

  /** The numeric keys of `CoinData` a caller can sort by; `current_price` is the default. */
  datatype SortKey = CurrentPrice | ChangeRate

  /** `a[sortBy] ?? 0`: a missing key compares as 0. */
  function KeyOf(c: Coin, key: SortKey): (r: real)
    ensures key == CurrentPrice ==> r == c.currentPrice.GetOr(0.0)
    ensures key == ChangeRate ==> r == c.changeRate.GetOr(0.0)
  {
    match key
    case CurrentPrice => c.currentPrice.GetOr(0.0)
    case ChangeRate => c.changeRate.GetOr(0.0)
  }

  lemma MissingKeyIsZero(c: Coin, key: SortKey)
    requires key == CurrentPrice ==> c.currentPrice == None
    requires key == ChangeRate ==> c.changeRate == None
    ensures KeyOf(c, key) == 0.0
  {
  }

  /** The comparator's value for `a, b`: negative puts `a` first. */
  function Compare(a: Coin, b: Coin, key: SortKey, ascending: bool): (r: real)
    ensures r == Rank(key, ascending)(a) - Rank(key, ascending)(b)
  {
    if ascending then KeyOf(a, key) - KeyOf(b, key) else KeyOf(b, key) - KeyOf(a, key)
  }

  /** The position a coin earns under the comparator: its key, negated when descending. */
  function Rank(key: SortKey, ascending: bool): Coin -> real {
    c => if ascending then KeyOf(c, key) else -KeyOf(c, key)
  }

  /** No pair of `s` is out of order by `rank`. */
  ghost predicate SortedBy<T>(s: seq<T>, rank: T -> real) {
    forall i, j :: 0 <= i < j < |s| ==> rank(s[i]) <= rank(s[j])
  }

  ghost predicate AtLeast<T>(s: seq<T>, v: real, rank: T -> real) {
    forall i :: 0 <= i < |s| ==> v <= rank(s[i])
  }

  /** Insert `x` after every element whose rank does not exceed its own, so equal ranks keep
      their input order as in the stable `Array.prototype.sort`. */
  function Insert<T>(x: T, s: seq<T>, rank: T -> real): (r: seq<T>)
    ensures |r| == |s| + 1
  {
    if s == [] then [x]
    else if rank(x) - rank(s[0]) < 0.0 then [x] + s
    else [s[0]] + Insert(x, s[1..], rank)
  }

  lemma {:induction false} InsertPermutes<T>(x: T, s: seq<T>, rank: T -> real)
    ensures multiset(Insert(x, s, rank)) == multiset(s) + multiset{x}
  {
    if s != [] && rank(x) - rank(s[0]) >= 0.0 {
      InsertPermutes(x, s[1..], rank);
      assert s == [s[0]] + s[1..];
    }
  }

  lemma {:induction false} InsertAtLeast<T>(x: T, s: seq<T>, v: real, rank: T -> real)
    requires AtLeast(s, v, rank) && v <= rank(x)
    ensures AtLeast(Insert(x, s, rank), v, rank)
  {
    if s != [] && rank(x) - rank(s[0]) >= 0.0 {
      assert AtLeast(s[1..], v, rank) by {
        forall i | 0 <= i < |s[1..]| ensures v <= rank(s[1..][i]) {
          assert s[1..][i] == s[i + 1];
        }
      }
      InsertAtLeast(x, s[1..], v, rank);
      var rest := Insert(x, s[1..], rank);
      forall i | 0 <= i < |rest| + 1 ensures v <= rank(([s[0]] + rest)[i]) {
        if i > 0 { assert ([s[0]] + rest)[i] == rest[i - 1]; }
      }
    } else if s != [] {
      forall i | 0 <= i < |s| + 1 ensures v <= rank(([x] + s)[i]) {
        if i > 0 { assert ([x] + s)[i] == s[i - 1]; }
      }
    }
  }

  lemma {:induction false} InsertSorted<T>(x: T, s: seq<T>, rank: T -> real)
    requires SortedBy(s, rank)
    ensures SortedBy(Insert(x, s, rank), rank)
  {
    if s == [] {
    } else if rank(x) - rank(s[0]) < 0.0 {
      var r := [x] + s;
      forall i, j | 0 <= i < j < |r| ensures rank(r[i]) <= rank(r[j]) {
        assert r[j] == s[j - 1];
        if i > 0 {
          assert r[i] == s[i - 1];
        } else if j > 1 {
          assert rank(s[0]) <= rank(s[j - 1]);
        }
      }
    } else {
      var tail := s[1..];
      assert SortedBy(tail, rank) by {
        forall i, j | 0 <= i < j < |tail| ensures rank(tail[i]) <= rank(tail[j]) {
          assert tail[i] == s[i + 1] && tail[j] == s[j + 1];
        }
      }
      assert AtLeast(tail, rank(s[0]), rank) by {
        forall i | 0 <= i < |tail| ensures rank(s[0]) <= rank(tail[i]) {
          assert tail[i] == s[i + 1];
        }
      }
      InsertSorted(x, tail, rank);
      InsertAtLeast(x, tail, rank(s[0]), rank);
      var rest := Insert(x, tail, rank);
      var r := [s[0]] + rest;
      forall i, j | 0 <= i < j < |r| ensures rank(r[i]) <= rank(r[j]) {
        assert r[j] == rest[j - 1];
        if i > 0 {
          assert r[i] == rest[i - 1];
        }
      }
    }
  }

  /** The elements of `s` whose rank is `v`, in order. */
  function WithRank<T(==,!new)>(s: seq<T>, rank: T -> real, v: real): seq<T> {
    Filter(s, (y: T) => rank(y) == v)
  }

  /** `WithRank` is the filter by any predicate that holds exactly at rank `v`. */
  lemma {:induction false} WithRankIs<T(!new)>(s: seq<T>, rank: T -> real, v: real, p: T -> bool)
    requires forall x :: x in s ==> (p(x) <==> rank(x) == v)
    ensures WithRank(s, rank, v) == Filter(s, p)
  {
    if s != [] {
      WithRankIs(s[1..], rank, v, p);
    }
  }

  lemma {:induction false} InsertOtherRank<T(!new)>(x: T, s: seq<T>, rank: T -> real, v: real)
    requires rank(x) != v
    ensures WithRank(Insert(x, s, rank), rank, v) == WithRank(s, rank, v)
  {
    if s != [] && rank(x) - rank(s[0]) >= 0.0 {
      InsertOtherRank(x, s[1..], rank, v);
    }
  }

  lemma {:induction false} InsertSameRank<T(!new)>(x: T, s: seq<T>, rank: T -> real)
    requires SortedBy(s, rank)
    ensures WithRank(Insert(x, s, rank), rank, rank(x)) == WithRank(s, rank, rank(x)) + [x]
  {
    var v := rank(x);
    if s == [] {
    } else if rank(x) - rank(s[0]) < 0.0 {
      forall k | 0 <= k < |s| ensures rank(s[k]) != v {
        assert rank(s[0]) <= rank(s[k]);
      }
      WithRankIs(s, rank, v, (y: T) => false);
      FilterNone(s, (y: T) => false);
    } else {
      assert SortedBy(s[1..], rank) by {
        forall i, j | 0 <= i < j < |s[1..]| ensures rank(s[1..][i]) <= rank(s[1..][j]) {
          assert s[1..][i] == s[i + 1] && s[1..][j] == s[j + 1];
        }
      }
      InsertSameRank(x, s[1..], rank);
    }
  }

  /** Elements of equal rank come out in the order they went in. */
  lemma {:induction false} SortByStable<T(!new)>(s: seq<T>, rank: T -> real, v: real)
    ensures WithRank(SortBy(s, rank), rank, v) == WithRank(s, rank, v)
    decreases |s|
  {
    if s != [] {
      var init := s[..|s| - 1];
      var last := s[|s| - 1];
      SortByStable(init, rank, v);
      assert s == init + [last];
      FilterConcat(init, [last], (y: T) => rank(y) == v);
      if rank(last) == v {
        InsertSameRank(last, SortBy(init, rank), rank);
      } else {
        InsertOtherRank(last, SortBy(init, rank), rank, v);
      }
    }
  }

  /** Insertion sort by `rank`: each element is inserted into the sorted run before it. */
  function SortBy<T(==,!new)>(s: seq<T>, rank: T -> real): (r: seq<T>)
    ensures multiset(r) == multiset(s)
    ensures SortedBy(r, rank)
  {
    if s == [] then []
    else
      var init := s[..|s| - 1];
      var last := s[|s| - 1];
      var sortedInit := SortBy(init, rank);
      InsertPermutes(last, sortedInit, rank);
      InsertSorted(last, sortedInit, rank);
      assert s == init + [last];
      Insert(last, sortedInit, rank)
  }

  /** `sortCoins`: a sorted copy of `coins` (the argument is a value and cannot change). */
  function SortCoins(coins: seq<Coin>, key: SortKey, ascending: bool): (r: seq<Coin>)
    ensures multiset(r) == multiset(coins)
    ensures |r| == |coins|
    ensures forall i, j :: 0 <= i < j < |r| ==> Compare(r[i], r[j], key, ascending) <= 0.0
  {
    var r := SortBy(coins, Rank(key, ascending));
    assert |r| == |multiset(r)|;
    r
  }

  /** `Array.prototype.sort` is stable: coins with equal keys keep their input order. */
  lemma SortCoinsStable(coins: seq<Coin>, key: SortKey, ascending: bool, v: real)
    ensures Filter(SortCoins(coins, key, ascending), (c: Coin) => KeyOf(c, key) == v)
         == Filter(coins, (c: Coin) => KeyOf(c, key) == v)
  {
    var rank := Rank(key, ascending);
    var w := if ascending then v else -v;
    SortByStable(coins, rank, w);
    WithRankIs(SortCoins(coins, key, ascending), rank, w, (c: Coin) => KeyOf(c, key) == v);
    WithRankIs(coins, rank, w, (c: Coin) => KeyOf(c, key) == v);
  }

  /** With the default direction (`ascending = false`) the result is non-increasing in the key. */
  lemma SortDescending(coins: seq<Coin>, key: SortKey)
    ensures forall i, j :: 0 <= i < j < |coins| ==>
      KeyOf(SortCoins(coins, key, false)[i], key) >= KeyOf(SortCoins(coins, key, false)[j], key)
  {
    var r := SortCoins(coins, key, false);
    forall i, j | 0 <= i < j < |coins| ensures KeyOf(r[i], key) >= KeyOf(r[j], key) {
      assert Compare(r[i], r[j], key, false) <= 0.0;
    }
  }

  /** With `ascending = true` the result is non-decreasing in the key. */
  lemma SortAscending(coins: seq<Coin>, key: SortKey)
    ensures forall i, j :: 0 <= i < j < |coins| ==>
      KeyOf(SortCoins(coins, key, true)[i], key) <= KeyOf(SortCoins(coins, key, true)[j], key)
  {
    var r := SortCoins(coins, key, true);
    forall i, j | 0 <= i < j < |coins| ensures KeyOf(r[i], key) <= KeyOf(r[j], key) {
      assert Compare(r[i], r[j], key, true) <= 0.0;
    }
  }
}
