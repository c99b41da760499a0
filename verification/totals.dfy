/** The totals row appended after the query rows: the six counts summed,
    the four percentages averaged over the rows. */
module Totals {
  import opened Rows

  /** Every column key; the source's accumulator dictionary starts with each at 0. */
  const AllKeys: set<Key> := {
    WoiItem, DoneItem, TotalItem, WoiDoc, DoneDoc, TotalDoc,
    WoiItemPercent, DoneItemPercent, WoiDocPercent, DoneDocPercent }

  /** `AllKeys` lists every column key, so the totals row has a cell for each. */
  lemma AllKeysComplete()
    ensures forall k: Key :: k in AllKeys
  {
    forall k: Key
      ensures k in AllKeys
    {
      match k
      case WoiItem =>
      case DoneItem =>
      case TotalItem =>
      case WoiDoc =>
      case DoneDoc =>
      case TotalDoc =>
      case WoiItemPercent =>
      case DoneItemPercent =>
      case WoiDocPercent =>
      case DoneDocPercent =>
    }
  }

  /** Sum of column `k` over `rows`, a NULL value adding 0. */
  function KeySum(rows: seq<QueryRow>, k: Key): int {
    if |rows| == 0 then 0
    else KeySum(rows[..|rows| - 1], k) + Cell(rows[|rows| - 1].fields, k)
  }

  /** A column whose every value lies in [lo, hi] sums to between |rows|*lo and |rows|*hi. */
  lemma {:induction false} KeySumBounds(rows: seq<QueryRow>, k: Key, lo: int, hi: int)
    requires forall i :: 0 <= i < |rows| ==> lo <= Cell(rows[i].fields, k) <= hi
    ensures |rows| * lo <= KeySum(rows, k) <= |rows| * hi
    decreases |rows|
  {
    if |rows| > 0 {
      var n := |rows| - 1;
      KeySumBounds(rows[..n], k, lo, hi);
      assert KeySum(rows, k) == KeySum(rows[..n], k) + Cell(rows[n].fields, k);
      MulSucc(n, lo);
      MulSucc(n, hi);
    }
  }

  lemma MulSucc(n: int, x: int)
    ensures (n + 1) * x == n * x + x
  {
  }

  /** `q` is num/den rounded to the nearest integer, a tie going to the even neighbour. */
  ghost predicate IsRounding(num: int, den: int, q: int)
    requires den > 0
  {
    && -den <= 2 * (num - q * den) <= den
    && (2 * (num - q * den) == den || 2 * (num - q * den) == -den ==> q % 2 == 0)
  }

  /** Python's `round(num / den, 2)` for a value kept in hundredths. */
  function RoundHalfEven(num: int, den: int): (q: int)
    requires den > 0
    ensures IsRounding(num, den, q)
  {
    var f := num / den;
    var rem := num % den;
    assert num == f * den + rem;
    assert num - (f + 1) * den == rem - den;
    if 2 * rem < den then f
    else if 2 * rem > den then f + 1
    else if f % 2 == 0 then f
    else f + 1
  }

  /** A product with a positive factor is positive only if the other factor is. */
  lemma PositiveFactor(x: int, den: int)
    requires den > 0 && x * den > 0
    ensures x > 0
  {
  }

  /** Rounding to nearest, ties to even, has one answer. */
  lemma RoundingUnique(num: int, den: int, q: int, q': int)
    requires den > 0 && IsRounding(num, den, q) && IsRounding(num, den, q')
    ensures q == q'
  {
    var e := num - q * den;
    var e' := num - q' * den;
    // Both errors lie within half a step, so the two candidates are less than two steps apart.
    assert (q' - q + 2) * den == e - e' + 2 * den;
    assert (q - q' + 2) * den == e' - e + 2 * den;
    PositiveFactor(q' - q + 2, den);
    PositiveFactor(q - q' + 2, den);
    // One step apart would put both exactly on the tie, and both would be even.
    assert q' == q + 1 ==> e - e' == den;
    assert q == q' + 1 ==> e' - e == den;
  }

  /** Any integer within half a step of num/den that breaks ties towards even is the rounding. */
  lemma RoundHalfEvenUnique(num: int, den: int, q': int)
    requires den > 0 && IsRounding(num, den, q')
    ensures q' == RoundHalfEven(num, den)
  {
    RoundingUnique(num, den, q', RoundHalfEven(num, den));
  }

  /** Rounding the mean of values in [0, top] stays in [0, top]. */
  lemma RoundHalfEvenBounds(num: int, den: int, top: int)
    requires den > 0 && 0 <= num <= top * den
    ensures 0 <= RoundHalfEven(num, den) <= top
  {
    var q := RoundHalfEven(num, den);
    assert (q + 1) * den == q * den + den;
    PositiveFactor(q + 1, den);
    assert (top - q + 1) * den == top * den - q * den + den;
    PositiveFactor(top - q + 1, den);
  }

  /** The totals row's value for a percentage column: the rounded mean of
      the per-row percentages, or 0 when there are no rows. */
  function MeanPercent(total: int, count: nat): (r: int)
    ensures count == 0 ==> r == 0
    ensures count > 0 ==> -(count as int) <= 2 * (total - r * count) <= count
  {
    if count == 0 then 0 else RoundHalfEven(total, count)
  }

  /** The value the totals row holds for column `k`. */
  function TotalOf(rows: seq<QueryRow>, k: Key): int {
    if IsPercent(k) then MeanPercent(KeySum(rows, k), |rows|) else KeySum(rows, k)
  }

  /** Percentages between 0 and 100 % average to a percentage between 0 and 100 %. */
  lemma MeanPercentInRange(rows: seq<QueryRow>, k: Key)
    requires IsPercent(k)
    requires forall i :: 0 <= i < |rows| ==> 0 <= Cell(rows[i].fields, k) <= 10000
    ensures 0 <= TotalOf(rows, k) <= 10000
  {
    if |rows| > 0 {
      KeySumBounds(rows, k, 0, 10000);
      RoundHalfEvenBounds(KeySum(rows, k), |rows|, 10000);
    }
  }

  /** The accumulation loop: each row adds `row.get(key) or 0` to every key's running sum. */
  method SumKeys(rows: seq<QueryRow>) returns (sums: map<Key, int>)
    ensures sums.Keys == AllKeys
    ensures forall k :: k in sums ==> sums[k] == KeySum(rows, k)
  {
    sums := map k | k in AllKeys :: 0;
    var i := 0;
    while i < |rows|
      invariant 0 <= i <= |rows|
      invariant sums.Keys == AllKeys
      invariant forall k :: k in sums ==> sums[k] == KeySum(rows[..i], k)
    {
      assert rows[..i + 1][..i] == rows[..i];
      sums := map k | k in sums :: sums[k] + Cell(rows[i].fields, k);
      i := i + 1;
    }
    assert rows[..|rows|] == rows;
  }

  /** The report data: the query rows unchanged and in order, then one
      totals row holding, for every column, the sum of the counts or the
      rounded mean of the percentages (0 for no rows). */
  method BuildData(rows: seq<QueryRow>) returns (data: seq<ReportRow>)
    ensures |data| == |rows| + 1
    ensures forall i :: 0 <= i < |rows| ==> data[i] == Entry(rows[i])
    ensures Label(data[|rows|]) == TotalLabel && BuyerOf(data[|rows|]) == Some("") && Bold(data[|rows|])
    ensures data[|rows|].Totals? && data[|rows|].sums.Keys == AllKeys
    ensures forall k: Key :: k in data[|rows|].sums
    ensures forall k :: !IsPercent(k) ==> Value(data[|rows|], k) == KeySum(rows, k)
    ensures forall k :: IsPercent(k) && |rows| == 0 ==> Value(data[|rows|], k) == 0
    ensures forall k :: IsPercent(k) && |rows| > 0 ==>
              Value(data[|rows|], k) == RoundHalfEven(KeySum(rows, k), |rows|)
  {
    var sums := SumKeys(rows);
    var count := |rows|;
    var totals := map k | k in AllKeys ::
      if IsPercent(k) then (if count > 0 then RoundHalfEven(sums[k], count) else 0) else sums[k];
    data := seq(|rows|, i requires 0 <= i < |rows| => Entry(rows[i])) + [Totals(totals)];
    AllKeysComplete();
  }

  /** Two rows with different item totals: 1 of 1 item open (100 %) and 0
      of 3 (0 %). The totals row reports the mean 50 %, not 1 of 4 = 25 %. */
  lemma MeanIsNotPooledRatio()
    ensures var rows := [
              QueryRow(1, Some("A"), map[WoiItem := 1, TotalItem := 1, WoiItemPercent := 10000]),
              QueryRow(1, Some("B"), map[WoiItem := 0, TotalItem := 3, WoiItemPercent := 0])];
            && TotalOf(rows, WoiItemPercent) == 5000
            && TotalOf(rows, WoiItem) * 10000 == 2500 * TotalOf(rows, TotalItem)
  {
    var rows := [
      QueryRow(1, Some("A"), map[WoiItem := 1, TotalItem := 1, WoiItemPercent := 10000]),
      QueryRow(1, Some("B"), map[WoiItem := 0, TotalItem := 3, WoiItemPercent := 0])];
    assert rows[..1][..0] == [];
    assert rows[..1] == [rows[0]];
    assert rows[..|rows| - 1] == rows[..1];
    assert KeySum(rows, WoiItemPercent) == 10000;
    assert KeySum(rows, WoiItem) == 1;
    assert KeySum(rows, TotalItem) == 4;
  }
}
