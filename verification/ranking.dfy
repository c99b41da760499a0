/** The ranked buyer table shown as the report's message: each buyer's
    total, buyers sorted by total (largest first, ties in first-seen
    order), numbered from 1. The HTML markup around it is not modelled. */
module Ranking {
  import opened Rows
  import opened Seqs

  datatype BuyerTotal = BuyerTotal(buyer: string, total: int)

  /** One table line: its number, the buyer and the buyer's total. */
  datatype RankEntry = RankEntry(no: int, buyer: string, total: int)

  /** `if buyer:` — only a present, non-empty buyer name is ranked. This
      leaves out the totals row, whose buyer name is "". */
  predicate Ranked(r: ReportRow) {
    BuyerOf(r).Some? && BuyerOf(r).value != ""
  }

  /** The ranked buyer name of each row, in row order, repeats included. */
  function RankedBuyers(data: seq<ReportRow>): seq<string> {
    if |data| == 0 then []
    else
      var last := data[|data| - 1];
      RankedBuyers(data[..|data| - 1]) + (if Ranked(last) then [BuyerOf(last).value] else [])
  }

  /** The sum of `amount` over the rows of buyer `b`. */
  function BuyerAmount(data: seq<ReportRow>, amount: ReportRow -> int, b: string): int {
    if |data| == 0 then 0
    else
      var last := data[|data| - 1];
      BuyerAmount(data[..|data| - 1], amount, b) + (if Ranked(last) && BuyerOf(last).value == b then amount(last) else 0)
  }

  /** Every ranked buyer once, in first-seen order, with its total. */
  function FirstSeenTotals(data: seq<ReportRow>, amount: ReportRow -> int): seq<BuyerTotal> {
    var names := Dedup(RankedBuyers(data));
    seq(|names|, i requires 0 <= i < |names| => BuyerTotal(names[i], BuyerAmount(data, amount, names[i])))
  }

  lemma RankedStep(data: seq<ReportRow>, i: int)
    requires 0 <= i < |data|
    ensures RankedBuyers(data[..i + 1]) ==
              RankedBuyers(data[..i]) + (if Ranked(data[i]) then [BuyerOf(data[i]).value] else [])
  {
    assert data[..i + 1][..i] == data[..i];
  }

  lemma AmountStep(data: seq<ReportRow>, i: int, amount: ReportRow -> int, b: string)
    requires 0 <= i < |data|
    ensures BuyerAmount(data[..i + 1], amount, b) ==
              BuyerAmount(data[..i], amount, b) + (if Ranked(data[i]) && BuyerOf(data[i]).value == b then amount(data[i]) else 0)
  {
    assert data[..i + 1][..i] == data[..i];
  }

  /** What the accumulation loop knows after reading `data`: the ranked
      buyers in first-seen order, each with its running total. */
  ghost predicate Accumulates(order: seq<string>, sums: map<string, int>, data: seq<ReportRow>, amount: ReportRow -> int) {
    && order == Dedup(RankedBuyers(data))
    && (forall b :: b in sums <==> b in order)
    && (forall b :: b in sums ==> sums[b] == BuyerAmount(data, amount, b))
    && (forall b :: b !in sums ==> BuyerAmount(data, amount, b) == 0)
  }

  /** One step of the loop for row `data[i]`. */
  method AddAmount(order: seq<string>, sums: map<string, int>, data: seq<ReportRow>, amount: ReportRow -> int, i: int)
      returns (order': seq<string>, sums': map<string, int>)
    requires 0 <= i < |data|
    requires Accumulates(order, sums, data[..i], amount)
    ensures Accumulates(order', sums', data[..i + 1], amount)
  {
    if Ranked(data[i]) {
      var b := BuyerOf(data[i]).value;
      order' := if b in sums then order else order + [b];
      sums' := sums[b := (if b in sums then sums[b] else 0) + amount(data[i])];
      RankedRowStep(order, sums, data, amount, i, b, order', sums');
    } else {
      order', sums' := order, sums;
      UnrankedRowStep(order, sums, data, amount, i);
    }
  }

  /** A row without a ranked buyer changes nothing. */
  lemma UnrankedRowStep(order: seq<string>, sums: map<string, int>, data: seq<ReportRow>, amount: ReportRow -> int, i: int)
    requires 0 <= i < |data| && !Ranked(data[i])
    requires Accumulates(order, sums, data[..i], amount)
    ensures Accumulates(order, sums, data[..i + 1], amount)
  {
    RankedStep(data, i);
    assert RankedBuyers(data[..i + 1]) == RankedBuyers(data[..i]) + [];
    assert RankedBuyers(data[..i + 1]) == RankedBuyers(data[..i]);
    forall c
      ensures BuyerAmount(data[..i + 1], amount, c) == BuyerAmount(data[..i], amount, c)
    {
      AmountStep(data, i, amount, c);
    }
    assert order == Dedup(RankedBuyers(data[..i + 1]));
    assert forall b :: b in sums ==> sums[b] == BuyerAmount(data[..i + 1], amount, b);
    assert forall b :: b !in sums ==> BuyerAmount(data[..i + 1], amount, b) == 0;
  }

  /** A row of ranked buyer `b` appends `b` to the order if it is new and
      adds the row's amount to `b`'s sum. */
  lemma RankedRowStep(order: seq<string>, sums: map<string, int>, data: seq<ReportRow>, amount: ReportRow -> int, i: int,
                      b: string, order': seq<string>, sums': map<string, int>)
    requires 0 <= i < |data| && Ranked(data[i]) && b == BuyerOf(data[i]).value
    requires Accumulates(order, sums, data[..i], amount)
    requires order' == if b in sums then order else order + [b]
    requires sums' == sums[b := (if b in sums then sums[b] else 0) + amount(data[i])]
    ensures Accumulates(order', sums', data[..i + 1], amount)
  {
    OrderStep(order, sums, data, i, b, order');
    SumsStep(sums, data, amount, i, b, sums');
    assert forall c :: c in sums' <==> c in order';
  }

  /** The first-seen order after a row of ranked buyer `b`: `b` is appended
      if it has no sum yet. */
  lemma OrderStep(order: seq<string>, sums: map<string, int>, data: seq<ReportRow>, i: int, b: string, order': seq<string>)
    requires 0 <= i < |data| && Ranked(data[i]) && b == BuyerOf(data[i]).value
    requires order == Dedup(RankedBuyers(data[..i]))
    requires forall c :: c in sums <==> c in order
    requires order' == if b in sums then order else order + [b]
    ensures order' == Dedup(RankedBuyers(data[..i + 1]))
    ensures forall c :: c in order' <==> c in sums || c == b
  {
    RankedStep(data, i);
    DedupSnoc(RankedBuyers(data[..i]), b);
  }

  /** The running sums after a row of ranked buyer `b`: `b`'s sum grows by
      the row's amount, every other sum stays. */
  lemma SumsStep(sums: map<string, int>, data: seq<ReportRow>, amount: ReportRow -> int, i: int, b: string, sums': map<string, int>)
    requires 0 <= i < |data| && Ranked(data[i]) && b == BuyerOf(data[i]).value
    requires forall c :: c in sums ==> sums[c] == BuyerAmount(data[..i], amount, c)
    requires forall c :: c !in sums ==> BuyerAmount(data[..i], amount, c) == 0
    requires sums' == sums[b := (if b in sums then sums[b] else 0) + amount(data[i])]
    ensures forall c :: c in sums' ==> sums'[c] == BuyerAmount(data[..i + 1], amount, c)
    ensures forall c :: c !in sums' ==> BuyerAmount(data[..i + 1], amount, c) == 0
  {
    forall c | c in sums'
      ensures sums'[c] == BuyerAmount(data[..i + 1], amount, c)
    {
      AmountStep(data, i, amount, c);
      if c != b {
        assert sums'[c] == sums[c];
      }
    }
    forall c | c !in sums'
      ensures BuyerAmount(data[..i + 1], amount, c) == 0
    {
      AmountStep(data, i, amount, c);
    }
  }

  /** The accumulation loop: `buyer_totals[buyer] += amount` for every row
      with a ranked buyer, the dictionary keeping first-seen order. */
  method BuyerSums(data: seq<ReportRow>, amount: ReportRow -> int) returns (order: seq<string>, sums: map<string, int>)
    ensures Accumulates(order, sums, data, amount)
  {
    order, sums := [], map[];
    var i := 0;
    while i < |data|
      invariant 0 <= i <= |data|
      invariant Accumulates(order, sums, data[..i], amount)
    {
      order, sums := AddAmount(order, sums, data, amount, i);
      i := i + 1;
    }
    assert data[..|data|] == data;
  }

  /** `buyer_totals.items()`: each buyer with its sum, in first-seen order. */
  method BuyerTotals(data: seq<ReportRow>, amount: ReportRow -> int) returns (totals: seq<BuyerTotal>)
    ensures totals == FirstSeenTotals(data, amount)
  {
    var order, sums := BuyerSums(data, amount);
    assert forall k :: 0 <= k < |order| ==> order[k] in sums;
    totals := seq(|order|, k requires 0 <= k < |order| => BuyerTotal(order[k], sums[order[k]]));
    ghost var expected := FirstSeenTotals(data, amount);
    assert |expected| == |totals|;
    assert forall k :: 0 <= k < |totals| ==> totals[k] == expected[k];
  }

  /** Totals never increase down the list. */
  ghost predicate NonIncreasing(s: seq<BuyerTotal>) {
    forall i, j :: 0 <= i < j < |s| ==> s[i].total >= s[j].total
  }

  /** Prepending an element no smaller than the first keeps the order. */
  lemma ConsNonIncreasing(h: BuyerTotal, rest: seq<BuyerTotal>)
    requires NonIncreasing(rest)
    requires |rest| > 0 ==> h.total >= rest[0].total
    ensures NonIncreasing([h] + rest)
  {
    assert forall j :: 0 <= j < |rest| ==> rest[0].total >= rest[j].total;
  }

  /** Inserts `x` after every element whose total is at least its own. */
  function InsertDesc(s: seq<BuyerTotal>, x: BuyerTotal): (r: seq<BuyerTotal>)
    requires NonIncreasing(s)
    ensures |r| == |s| + 1
    ensures r[0] == if |s| > 0 && s[0].total >= x.total then s[0] else x
    ensures NonIncreasing(r)
  {
    if |s| == 0 then [x]
    else if s[0].total >= x.total then
      var rest := InsertDesc(s[1..], x);
      ConsNonIncreasing(s[0], rest);
      [s[0]] + rest
    else
      ConsNonIncreasing(x, s);
      [x] + s
  }

  /** Insertion adds `x` and loses nothing. */
  lemma {:induction false} InsertDescPermutes(s: seq<BuyerTotal>, x: BuyerTotal)
    requires NonIncreasing(s)
    ensures multiset(InsertDesc(s, x)) == multiset(s) + multiset{x}
    decreases |s|
  {
    if |s| > 0 && s[0].total >= x.total {
      InsertDescPermutes(s[1..], x);
      assert s == [s[0]] + s[1..];
    }
  }

  /** `sorted(items, key=total, reverse=True)`: an insertion sort, each
      element placed after the earlier ones with an equal or larger total. */
  function SortDesc(s: seq<BuyerTotal>): (r: seq<BuyerTotal>)
    ensures NonIncreasing(r)
    ensures multiset(r) == multiset(s)
  {
    if |s| == 0 then []
    else
      assert s == s[..|s| - 1] + [s[|s| - 1]];
      InsertDescPermutes(SortDesc(s[..|s| - 1]), s[|s| - 1]);
      InsertDesc(SortDesc(s[..|s| - 1]), s[|s| - 1])
  }

  /** The elements whose total is `t`, in order. */
  function WithTotal(s: seq<BuyerTotal>, t: int): seq<BuyerTotal> {
    if |s| == 0 then []
    else (if s[0].total == t then [s[0]] else []) + WithTotal(s[1..], t)
  }

  lemma {:induction false} WithTotalAppend(a: seq<BuyerTotal>, b: seq<BuyerTotal>, t: int)
    ensures WithTotal(a + b, t) == WithTotal(a, t) + WithTotal(b, t)
    decreases |a|
  {
    if |a| == 0 {
      assert a + b == b;
    } else {
      var head := if a[0].total == t then [a[0]] else [];
      assert (a + b)[1..] == a[1..] + b;
      assert WithTotal(a + b, t) == head + WithTotal(a[1..] + b, t);
      WithTotalAppend(a[1..], b, t);
      ConcatAssoc(head, WithTotal(a[1..], t), WithTotal(b, t));
    }
  }

  lemma {:induction false} WithTotalNone(s: seq<BuyerTotal>, t: int)
    requires forall i :: 0 <= i < |s| ==> s[i].total != t
    ensures WithTotal(s, t) == []
    decreases |s|
  {
    if |s| > 0 {
      WithTotalNone(s[1..], t);
    }
  }

  /** Insertion puts `x` after every element with the same total. */
  lemma {:induction false} InsertDescStable(s: seq<BuyerTotal>, x: BuyerTotal, t: int)
    requires NonIncreasing(s)
    ensures WithTotal(InsertDesc(s, x), t) == WithTotal(s, t) + (if x.total == t then [x] else [])
    decreases |s|
  {
    var tail := if x.total == t then [x] else [];
    if |s| == 0 {
      assert WithTotal([x], t) == tail + WithTotal([], t);
    } else if s[0].total >= x.total {
      var head := if s[0].total == t then [s[0]] else [];
      var rest := InsertDesc(s[1..], x);
      assert WithTotal(InsertDesc(s, x), t) == head + WithTotal(rest, t) by {
        var r := [s[0]] + rest;
        assert r[1..] == rest;
      }
      InsertDescStable(s[1..], x, t);
      assert WithTotal(s, t) == head + WithTotal(s[1..], t);
      ConcatAssoc(head, WithTotal(s[1..], t), tail);
    } else {
      InsertDescFront(s, x, t);
    }
  }

  /** A total larger than the first goes to the front, and nothing after it shares its total. */
  lemma InsertDescFront(s: seq<BuyerTotal>, x: BuyerTotal, t: int)
    requires NonIncreasing(s) && |s| > 0 && s[0].total < x.total
    ensures WithTotal(InsertDesc(s, x), t) == WithTotal(s, t) + (if x.total == t then [x] else [])
  {
    var tail := if x.total == t then [x] else [];
    var r := [x] + s;
    assert r[1..] == s;
    assert WithTotal(r, t) == tail + WithTotal(s, t);
    if x.total == t {
      WithTotalNone(s, t);
    }
  }

  /** The sort is stable: the elements of any one total keep their order. */
  lemma {:induction false} SortDescStable(s: seq<BuyerTotal>, t: int)
    ensures WithTotal(SortDesc(s), t) == WithTotal(s, t)
    decreases |s|
  {
    if |s| > 0 {
      var s' := s[..|s| - 1];
      var x := s[|s| - 1];
      assert s == s' + [x];
      var tail := if x.total == t then [x] else [];
      var sorted' := SortDesc(s');
      assert SortDesc(s) == InsertDesc(sorted', x);
      InsertDescStable(sorted', x, t);
      SortDescStable(s', t);
      assert WithTotal(SortDesc(s), t) == WithTotal(s', t) + tail;
      WithTotalSnoc(s', x, t);
    }
  }

  lemma WithTotalSnoc(s: seq<BuyerTotal>, x: BuyerTotal, t: int)
    ensures WithTotal(s + [x], t) == WithTotal(s, t) + (if x.total == t then [x] else [])
  {
    WithTotalAppend(s, [x], t);
    assert [x][1..] == [];
    assert WithTotal([x], t) == (if x.total == t then [x] else []) + WithTotal([], t);
  }

  /** The buyer and total of each entry, without its number. */
  function Unnumbered(entries: seq<RankEntry>): (s: seq<BuyerTotal>)
    ensures |s| == |entries|
    ensures forall i :: 0 <= i < |entries| ==> s[i] == BuyerTotal(entries[i].buyer, entries[i].total)
  {
    if |entries| == 0 then []
    else [BuyerTotal(entries[0].buyer, entries[0].total)] + Unnumbered(entries[1..])
  }

  /** The ranking for a given per-row amount: the first-seen buyer totals,
      reordered so that totals never increase and buyers with equal totals
      stay in first-seen order, numbered 1, 2, ... */
  method RankTable(data: seq<ReportRow>, amount: ReportRow -> int) returns (entries: seq<RankEntry>)
    ensures |entries| == |Dedup(RankedBuyers(data))|
    ensures forall i :: 0 <= i < |entries| ==> entries[i].no == i + 1
    ensures NonIncreasing(Unnumbered(entries))
    ensures multiset(Unnumbered(entries)) == multiset(FirstSeenTotals(data, amount))
    ensures forall t :: WithTotal(Unnumbered(entries), t) == WithTotal(FirstSeenTotals(data, amount), t)
  {
    var totals := BuyerTotals(data, amount);
    var sorted := SortDesc(totals);
    entries := seq(|sorted|, k requires 0 <= k < |sorted| => RankEntry(k + 1, sorted[k].buyer, sorted[k].total));
    assert Unnumbered(entries) == sorted;
    assert |sorted| == |multiset(sorted)| == |multiset(totals)| == |totals|;
    forall t
      ensures WithTotal(sorted, t) == WithTotal(totals, t)
    {
      SortDescStable(totals, t);
    }
  }

  /** A sequence whose totals all equal `t` is its own `t`-subsequence. */
  lemma {:induction false} WithTotalAll(s: seq<BuyerTotal>, t: int)
    requires forall i :: 0 <= i < |s| ==> s[i].total == t
    ensures WithTotal(s, t) == s
    decreases |s|
  {
    if |s| > 0 {
      WithTotalAll(s[1..], t);
      assert s == [s[0]] + s[1..];
    }
  }

  /** A buyer's total of an amount that is 0 on every row is 0. */
  lemma {:induction false} ZeroAmount(data: seq<ReportRow>, b: string)
    ensures BuyerAmount(data, TotalDoneOf, b) == 0
    decreases |data|
  {
    if |data| > 0 {
      ZeroAmount(data[..|data| - 1], b);
    }
  }

  /** The ranking as the report computes it, reading the absent
      `total_done` key: every total is 0, so the stable sort keeps the
      buyers in first-seen order. */
  method RankTableAsWritten(data: seq<ReportRow>) returns (entries: seq<RankEntry>)
    ensures |entries| == |Dedup(RankedBuyers(data))|
    ensures forall i :: 0 <= i < |entries| ==> entries[i] == RankEntry(i + 1, Dedup(RankedBuyers(data))[i], 0)
  {
    entries := RankTable(data, TotalDoneOf);
    var base := FirstSeenTotals(data, TotalDoneOf);
    var names := Dedup(RankedBuyers(data));
    forall i | 0 <= i < |names|
      ensures base[i] == BuyerTotal(names[i], 0)
    {
      ZeroAmount(data, names[i]);
    }
    var u := Unnumbered(entries);
    forall i | 0 <= i < |u|
      ensures u[i].total == 0
    {
      assert u[i] in multiset(base);
    }
    WithTotalAll(u, 0);
    WithTotalAll(base, 0);
    assert u == base;
    forall i | 0 <= i < |entries|
      ensures entries[i] == RankEntry(i + 1, names[i], 0)
    {
      assert u[i] == base[i];
    }
  }
}
