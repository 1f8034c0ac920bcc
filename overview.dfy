/** The aggregations of the Overview page (Overview.tsx): headline KPIs,
    P&L by currency, the status split, the rejection reasons and the
    histogram of notional per client. */
module Overview {
  import opened Wrappers
  import opened CsvParser
  import opened Grouping

  /** `data.filter(r => r.status === s)` */
  function WithStatus(data: seq<NDFRecord>, s: string): (r: seq<NDFRecord>)
    ensures |r| <= |data|
    ensures forall x :: x in r ==> x in data && x.status == s
    ensures forall x :: x in data && x.status == s ==> x in r
    ensures |r| == RawCount(data, s)
    ensures forall x :: multiset(r)[x] == if x.status == s then multiset(data)[x] else 0
  {
    assert data != [] ==> data == [data[0]] + data[1..];
    if data == [] then []
    else if data[0].status == s then [data[0]] + WithStatus(data[1..], s)
    else WithStatus(data[1..], s)
  }

  /** `data.filter(r => r.isActionable).length` */
  function ActionableCount(data: seq<NDFRecord>): nat {
    if data == [] then 0 else (if data[0].isActionable then 1 else 0) + ActionableCount(data[1..])
  }

  /** `recs.reduce((sum, r) => sum + r.notional, 0)` */
  function NotionalSum(recs: seq<NDFRecord>): real {
    if recs == [] then 0.0 else recs[0].notional + NotionalSum(recs[1..])
  }

  /** A notional-weighted sum that skips the records whose weighted value
      is null: `sum + w(r) * r.notional`, or `sum` when `w(r) === null`. */
  function WeightedSum(recs: seq<NDFRecord>, w: NDFRecord -> Option<real>): real {
    if recs == [] then 0.0
    else
      (match w(recs[0]) case None => 0.0 case Some(v) => v * recs[0].notional)
      + WeightedSum(recs[1..], w)
  }

  function MarkupOf(r: NDFRecord): Option<real> {
    r.markupBps
  }

  function TenorOf(r: NDFRecord): Option<real> {
    if r.tenorDc.Some? then Some(r.tenorDc.value as real) else None
  }

  /** `q` is the quotient `sum / total` once the total is positive. */
  predicate IsQuotient(q: real, sum: real, total: real) {
    total > 0.0 ==> q * total == sum
  }

  /** `sum / total` when `total > 0`, else 0 */
  function GuardedRatio(sum: real, total: real): real {
    if total > 0.0 then sum / total else 0.0
  }

  lemma GuardedRatioIsQuotient(sum: real, total: real)
    ensures IsQuotient(GuardedRatio(sum, total), sum, total)
  {
  }

  /** What `resultByCurrency` files under each currency: `r.plBrl || 0`. */
  function PlEntries(deals: seq<NDFRecord>): (es: seq<Entry>)
    ensures |es| == |deals|
    ensures forall i :: 0 <= i < |deals| ==> es[i] == Entry(deals[i].currency, deals[i].plBrl.GetOr(0.0))
  {
    seq(|deals|, i requires 0 <= i < |deals| => Entry(deals[i].currency, deals[i].plBrl.GetOr(0.0)))
  }

  /** `actionableCount > 0 ? dealCount / actionableCount : 0` */
  function ConversionRate(dealCount: nat, actionableCount: nat): (r: real)
    ensures IsQuotient(r, dealCount as real, actionableCount as real)
    ensures actionableCount == 0 ==> r == 0.0
  {
    if actionableCount > 0 then dealCount as real / actionableCount as real else 0.0
  }

  datatype Kpis = Kpis(
    volumeTotal: real,
    resultadoTotal: real,
    markupMedio: real,
    prazoMedioPonderado: real,
    taxaConversao: real)

  /** `kpis` */
  function ComputeKpis(data: seq<NDFRecord>): (k: Kpis)
    ensures data == [] ==> k == Kpis(0.0, 0.0, 0.0, 0.0, 0.0)
    ensures NotionalSum(WithStatus(data, "DEAL")) <= 0.0 ==> k.markupMedio == 0.0 && k.prazoMedioPonderado == 0.0
    ensures ActionableCount(data) == 0 ==> k.taxaConversao == 0.0
    ensures k.volumeTotal == NotionalSum(WithStatus(data, "DEAL"))
    ensures k.resultadoTotal == Total(PlEntries(WithStatus(data, "DEAL")))
    ensures IsQuotient(k.markupMedio, WeightedSum(WithStatus(data, "DEAL"), MarkupOf), NotionalSum(WithStatus(data, "DEAL")))
    ensures IsQuotient(k.prazoMedioPonderado, WeightedSum(WithStatus(data, "DEAL"), TenorOf), NotionalSum(WithStatus(data, "DEAL")))
    ensures IsQuotient(k.taxaConversao, |WithStatus(data, "DEAL")| as real, ActionableCount(data) as real)
  {
    if data == [] then Kpis(0.0, 0.0, 0.0, 0.0, 0.0)
    else
      var deals := WithStatus(data, "DEAL");
      var totalNotional := NotionalSum(deals);
      var actionableCount := ActionableCount(data);
      GuardedRatioIsQuotient(WeightedSum(deals, MarkupOf), totalNotional);
      GuardedRatioIsQuotient(WeightedSum(deals, TenorOf), totalNotional);
      Kpis(
        totalNotional,
        Total(PlEntries(deals)),
        GuardedRatio(WeightedSum(deals, MarkupOf), totalNotional),
        GuardedRatio(WeightedSum(deals, TenorOf), totalNotional),
        ConversionRate(|deals|, actionableCount))
  }

  /** When every DEAL is actionable, there are no more deals than
      actionable records. */
  lemma {:induction false} DealsAtMostActionable(data: seq<NDFRecord>)
    requires forall i :: 0 <= i < |data| && data[i].status == "DEAL" ==> data[i].isActionable
    ensures |WithStatus(data, "DEAL")| <= ActionableCount(data)
  {
    if data != [] {
      DealsAtMostActionable(data[1..]);
    }
  }

  lemma ProportionBounds(part: nat, whole: nat)
    requires part <= whole && whole > 0
    ensures 0.0 <= part as real / whole as real <= 1.0
  {
  }

  /** The conversion rate is a proportion once every DEAL is actionable,
      which every record the normalizers build satisfies. */
  lemma ConversionRateBounded(data: seq<NDFRecord>)
    requires forall i :: 0 <= i < |data| ==> WellDerived(data[i])
    ensures 0.0 <= ComputeKpis(data).taxaConversao <= 1.0
  {
    forall i | 0 <= i < |data| && data[i].status == "DEAL" ensures data[i].isActionable {
      assert WellDerived(data[i]);
    }
    DealsAtMostActionable(data);
    if data != [] && ActionableCount(data) > 0 {
      ProportionBounds(|WithStatus(data, "DEAL")|, ActionableCount(data));
    }
  }

  /** Skipping a null value is the same as counting it as zero: the
      weighted sums leave out the null values, while the total notional
      they are divided by still counts those records. */
  lemma {:induction false} NullsWeighAsZero(recs: seq<NDFRecord>, w: NDFRecord -> Option<real>)
    ensures WeightedSum(recs, w) == WeightedSum(recs, r => Some(w(r).GetOr(0.0)))
  {
    if recs != [] {
      NullsWeighAsZero(recs[1..], w);
    }
  }

  lemma Distribute(a: real, b: real, c: real)
    ensures a * (b + c) == a * b + a * c
  {
  }

  lemma ScaleMono(v1: real, v2: real, n: real)
    requires v1 <= v2 && n >= 0.0
    ensures v1 * n <= v2 * n
  {
  }

  /** Raising the values of records with non-negative notionals never
      lowers the weighted sum (a null value counts as zero). */
  lemma {:induction false} WeightedSumMono(recs: seq<NDFRecord>, w1: NDFRecord -> Option<real>, w2: NDFRecord -> Option<real>)
    requires forall i :: 0 <= i < |recs| ==> recs[i].notional >= 0.0
    requires forall i :: 0 <= i < |recs| ==> w1(recs[i]).GetOr(0.0) <= w2(recs[i]).GetOr(0.0)
    ensures WeightedSum(recs, w1) <= WeightedSum(recs, w2)
  {
    if recs != [] {
      var rest := recs[1..];
      forall i | 0 <= i < |rest| ensures rest[i] == recs[i + 1] {
      }
      WeightedSumMono(rest, w1, w2);
      ScaleMono(w1(recs[0]).GetOr(0.0), w2(recs[0]).GetOr(0.0), recs[0].notional);
    }
  }

  /** Weighting every record by the same value c gives c times the total
      notional. */
  lemma {:induction false} WeightedSumConst(recs: seq<NDFRecord>, w: NDFRecord -> Option<real>, c: real)
    requires forall i :: 0 <= i < |recs| ==> w(recs[i]) == Some(c)
    ensures WeightedSum(recs, w) == c * NotionalSum(recs)
  {
    if recs != [] {
      var rest := recs[1..];
      forall i | 0 <= i < |rest| ensures w(rest[i]) == Some(c) {
        assert rest[i] == recs[i + 1];
      }
      WeightedSumConst(rest, w, c);
      Distribute(c, recs[0].notional, NotionalSum(recs[1..]));
    }
  }

  /** With non-negative notionals and every non-null value in [lo, hi],
      lo <= 0 <= hi, the weighted sum lies between lo and hi times the
      total notional. */
  lemma {:induction false} WeightedSumBounds(recs: seq<NDFRecord>, w: NDFRecord -> Option<real>, lo: real, hi: real)
    requires lo <= 0.0 <= hi
    requires forall i :: 0 <= i < |recs| ==> recs[i].notional >= 0.0
    requires forall i :: 0 <= i < |recs| && w(recs[i]).Some? ==> lo <= w(recs[i]).value <= hi
    ensures lo * NotionalSum(recs) <= WeightedSum(recs, w) <= hi * NotionalSum(recs)
  {
    var floor := (r: NDFRecord) => Some(lo);
    var ceiling := (r: NDFRecord) => Some(hi);
    WeightedSumMono(recs, floor, w);
    WeightedSumMono(recs, w, ceiling);
    WeightedSumConst(recs, floor, lo);
    WeightedSumConst(recs, ceiling, hi);
  }

  lemma {:induction false} RatioBounds(sum: real, total: real, lo: real, hi: real)
    requires lo <= 0.0 <= hi
    requires lo * total <= sum <= hi * total
    ensures lo <= GuardedRatio(sum, total) <= hi
  {
    if total > 0.0 {
      var q := sum / total;
      assert q * total == sum;
      if q > hi {
        assert q * total > hi * total;
      }
      if q < lo {
        assert q * total < lo * total;
      }
    }
  }

  /** What holds of every DEAL record holds of every record of the
      deals list. */
  lemma {:induction false} DealsInherit(data: seq<NDFRecord>, w: NDFRecord -> Option<real>, lo: real, hi: real)
    requires forall i :: 0 <= i < |data| && data[i].status == "DEAL" ==> data[i].notional >= 0.0
    requires forall i :: 0 <= i < |data| && data[i].status == "DEAL" && w(data[i]).Some? ==>
               lo <= w(data[i]).value <= hi
    ensures forall i :: 0 <= i < |WithStatus(data, "DEAL")| ==> WithStatus(data, "DEAL")[i].notional >= 0.0
    ensures forall i :: 0 <= i < |WithStatus(data, "DEAL")| && w(WithStatus(data, "DEAL")[i]).Some? ==>
              lo <= w(WithStatus(data, "DEAL")[i]).value <= hi
  {
    var deals := WithStatus(data, "DEAL");
    forall i | 0 <= i < |deals|
      ensures deals[i].notional >= 0.0 && (w(deals[i]).Some? ==> lo <= w(deals[i]).value <= hi)
    {
      assert deals[i] in deals;
      var j :| 0 <= j < |data| && data[j] == deals[i];
    }
  }

  /** The notional-weighted average of any value, with the nulls
      weighing in as zero, lies in [lo, hi] when the non-null values do
      and lo <= 0 <= hi. */
  lemma {:induction false} WeightedAverageBounds(recs: seq<NDFRecord>, w: NDFRecord -> Option<real>, lo: real, hi: real)
    requires lo <= 0.0 <= hi
    requires forall i :: 0 <= i < |recs| ==> recs[i].notional >= 0.0
    requires forall i :: 0 <= i < |recs| && w(recs[i]).Some? ==> lo <= w(recs[i]).value <= hi
    ensures lo <= GuardedRatio(WeightedSum(recs, w), NotionalSum(recs)) <= hi
  {
    WeightedSumBounds(recs, w, lo, hi);
    RatioBounds(WeightedSum(recs, w), NotionalSum(recs), lo, hi);
  }

  /** The weighted average markup of the deals lies in [lo, hi] when every
      deal's notional is non-negative and its markup, when known, lies in
      [lo, hi]; the null markups weigh in as zero, hence lo <= 0 <= hi. */
  lemma {:induction false} MarkupAverageBounds(data: seq<NDFRecord>, lo: real, hi: real)
    requires lo <= 0.0 <= hi
    requires forall i :: 0 <= i < |data| && data[i].status == "DEAL" ==> data[i].notional >= 0.0
    requires forall i :: 0 <= i < |data| && data[i].status == "DEAL" && data[i].markupBps.Some? ==>
               lo <= data[i].markupBps.value <= hi
    ensures lo <= ComputeKpis(data).markupMedio <= hi
  {
    DealsInherit(data, MarkupOf, lo, hi);
    WeightedAverageBounds(WithStatus(data, "DEAL"), MarkupOf, lo, hi);
  }

  /** The same bound for the weighted average tenor. */
  lemma {:induction false} TenorAverageBounds(data: seq<NDFRecord>, hi: real)
    requires 0.0 <= hi
    requires forall i :: 0 <= i < |data| && data[i].status == "DEAL" ==> data[i].notional >= 0.0
    requires forall i :: 0 <= i < |data| && data[i].status == "DEAL" && data[i].tenorDc.Some? ==>
               0 <= data[i].tenorDc.value && data[i].tenorDc.value as real <= hi
    ensures 0.0 <= ComputeKpis(data).prazoMedioPonderado <= hi
  {
    DealsInherit(data, TenorOf, 0.0, hi);
    WeightedAverageBounds(WithStatus(data, "DEAL"), TenorOf, 0.0, hi);
  }

  /** Deals that all carry the same markup `c`, on a positive total
      notional, show exactly `c` as the KPI markup average. */
  lemma {:induction false} UniformMarkupAverage(data: seq<NDFRecord>, c: real)
    requires forall i :: 0 <= i < |data| && data[i].status == "DEAL" ==> data[i].markupBps == Some(c)
    requires NotionalSum(WithStatus(data, "DEAL")) > 0.0
    ensures ComputeKpis(data).markupMedio == c
  {
    DealsShareMarkup(data, c);
    ConstantQuotient(WithStatus(data, "DEAL"), c, ComputeKpis(data).markupMedio);
  }

  /** The shared markup carries over to the deals list. */
  lemma {:induction false} DealsShareMarkup(data: seq<NDFRecord>, c: real)
    requires forall i :: 0 <= i < |data| && data[i].status == "DEAL" ==> data[i].markupBps == Some(c)
    ensures forall i :: 0 <= i < |WithStatus(data, "DEAL")| ==> MarkupOf(WithStatus(data, "DEAL")[i]) == Some(c)
  {
    var deals := WithStatus(data, "DEAL");
    forall i | 0 <= i < |deals| ensures MarkupOf(deals[i]) == Some(c) {
      assert deals[i] in deals;
    }
  }

  /** A markup average over records that all carry the markup c, on a
      positive total notional, is c. */
  lemma {:induction false} ConstantQuotient(deals: seq<NDFRecord>, c: real, q: real)
    requires forall i :: 0 <= i < |deals| ==> MarkupOf(deals[i]) == Some(c)
    requires NotionalSum(deals) > 0.0
    requires IsQuotient(q, WeightedSum(deals, MarkupOf), NotionalSum(deals))
    ensures q == c
  {
    WeightedSumConst(deals, MarkupOf, c);
    QuotientOfProduct(q, WeightedSum(deals, MarkupOf), c, NotionalSum(deals));
  }

  /** The quotient of c times a positive total by that total is c. */
  lemma QuotientOfProduct(q: real, sum: real, c: real, total: real)
    requires total > 0.0
    requires sum == c * total
    requires IsQuotient(q, sum, total)
    ensures q == c
  {
    assert (q - c) * total == 0.0;
  }


  // ---------------------------------------------------------------------
  // Result by currency

  datatype CurrencyValue = CurrencyValue(currency: string, value: real)

  /** `Object.entries(byCurrency).map(([c, v]) => ({currency: c, value: v / 1000}))` */
  function Scaled(keys: seq<string>, entries: seq<Entry>): (chart: seq<CurrencyValue>)
    ensures |chart| == |keys|
  {
    seq(|keys|, i requires 0 <= i < |keys| => CurrencyValue(keys[i], SumFor(entries, keys[i]) / 1000.0))
  }

  /** `chart.reduce((sum, item) => sum + item.value, 0)` */
  function ChartTotal(chart: seq<CurrencyValue>): real {
    if chart == [] then 0.0 else ChartTotal(chart[..|chart| - 1]) + chart[|chart| - 1].value
  }

  /** Scaling each group by 1/1000 scales their total by 1/1000. */
  lemma {:induction false} ScaledTotal(keys: seq<string>, entries: seq<Entry>)
    ensures ChartTotal(Scaled(keys, entries)) == SumOver(keys, entries) / 1000.0
  {
    if keys != [] {
      var init := keys[..|keys| - 1];
      assert Scaled(keys, entries)[..|keys| - 1] == Scaled(init, entries);
      ScaledTotal(init, entries);
    }
  }

  /** `resultByCurrency`: one bar per currency of the deals, in order of
      first appearance, holding its P&L in thousands, then a "Subtotal"
      bar holding the sum of those bars, which is the total P&L of the
      KPIs in thousands. */
  method ResultByCurrency(data: seq<NDFRecord>) returns (chart: seq<CurrencyValue>)
    ensures data == [] ==> chart == []
    ensures data != [] ==>
              var entries := PlEntries(WithStatus(data, "DEAL"));
              chart == Scaled(Keys(entries), entries) + [CurrencyValue("Subtotal", ChartTotal(Scaled(Keys(entries), entries)))]
    ensures data != [] ==> chart[|chart| - 1].value == ComputeKpis(data).resultadoTotal / 1000.0
  {
    if data == [] {
      return [];
    }
    var entries := PlEntries(WithStatus(data, "DEAL"));
    var keys, byCurrency := GroupSum(entries);
    chart := seq(|keys|, i requires 0 <= i < |keys| => CurrencyValue(keys[i], byCurrency[keys[i]] / 1000.0));
    forall i | 0 <= i < |keys| ensures chart[i] == Scaled(keys, entries)[i] {
      assert keys[i] in keys;
    }
    assert chart == Scaled(keys, entries);
    var subtotal := ChartTotal(chart);
    chart := chart + [CurrencyValue("Subtotal", subtotal)];
    SubtotalIsResult(data);
  }

  /** The subtotal bar equals the KPI total P&L, in thousands. */
  lemma SubtotalIsResult(data: seq<NDFRecord>)
    requires data != []
    ensures var entries := PlEntries(WithStatus(data, "DEAL"));
            ChartTotal(Scaled(Keys(entries), entries)) == ComputeKpis(data).resultadoTotal / 1000.0
  {
    var entries := PlEntries(WithStatus(data, "DEAL"));
    ScaledTotal(Keys(entries), entries);
    GroupsAddUp(entries);
    assert ComputeKpis(data).resultadoTotal == Total(entries);
  }

  // ---------------------------------------------------------------------
  // Status distribution

  /** The status a record is charted under: NOTH.DONE shows as NOT DONE. */
  function ChartedStatus(s: string): string {
    if s == "NOTH.DONE" then "NOT DONE" else s
  }

  /** `statusCount[s]` after the reduce: records charted under `s`. */
  function StatusCount(data: seq<NDFRecord>, s: string): nat {
    if data == [] then 0
    else (if ChartedStatus(data[0].status) == s then 1 else 0) + StatusCount(data[1..], s)
  }

  /** Records whose raw status is `s`. */
  function RawCount(data: seq<NDFRecord>, s: string): nat {
    if data == [] then 0
    else (if data[0].status == s then 1 else 0) + RawCount(data[1..], s)
  }

  lemma {:induction false} ChartedCounts(data: seq<NDFRecord>)
    ensures StatusCount(data, "DEAL") == RawCount(data, "DEAL")
    ensures StatusCount(data, "REJECTED") == RawCount(data, "REJECTED")
    ensures StatusCount(data, "NOT DONE") == RawCount(data, "NOTH.DONE") + RawCount(data, "NOT DONE")
  {
    if data != [] {
      ChartedCounts(data[1..]);
    }
  }

  datatype StatusSlice = StatusSlice(status: string, count: nat)

  /** `statusDistribution`: nothing for no data, otherwise DEAL, NOT DONE
      and REJECTED, in that order, where NOT DONE also counts NOTH.DONE. */
  function StatusDistribution(data: seq<NDFRecord>): (r: seq<StatusSlice>)
    ensures data == [] ==> r == []
    ensures data != [] ==> |r| == 3
    ensures data != [] ==> r[0] == StatusSlice("DEAL", RawCount(data, "DEAL"))
    ensures data != [] ==> r[1] == StatusSlice("NOT DONE", RawCount(data, "NOTH.DONE") + RawCount(data, "NOT DONE"))
    ensures data != [] ==> r[2] == StatusSlice("REJECTED", RawCount(data, "REJECTED"))
  {
    if data == [] then []
    else
      ChartedCounts(data);
      [ StatusSlice("DEAL", StatusCount(data, "DEAL")),
        StatusSlice("NOT DONE", StatusCount(data, "NOT DONE")),
        StatusSlice("REJECTED", StatusCount(data, "REJECTED")) ]
  }

  /** The statuses the distribution shows. */
  predicate IsCharted(s: string) {
    s == "DEAL" || s == "NOTH.DONE" || s == "NOT DONE" || s == "REJECTED"
  }

  /** The three counts never exceed the number of records, and they add up
      to it exactly when no record has another status: the counts of every
      other status are dropped. */
  lemma {:induction false} StatusSlicesCoverCharted(data: seq<NDFRecord>)
    ensures RawCount(data, "DEAL") + RawCount(data, "NOTH.DONE") + RawCount(data, "NOT DONE")
            + RawCount(data, "REJECTED") <= |data|
    ensures RawCount(data, "DEAL") + RawCount(data, "NOTH.DONE") + RawCount(data, "NOT DONE")
            + RawCount(data, "REJECTED") == |data|
            <==> forall i :: 0 <= i < |data| ==> IsCharted(data[i].status)
  {
    if data != [] {
      StatusSlicesCoverCharted(data[1..]);
      assert forall i :: 1 <= i < |data| ==> data[i] == data[1..][i - 1];
    }
  }

  // ---------------------------------------------------------------------
  // Rejection reasons

  /** `r.rejectedMessage || 'Unknown'` */
  function ReasonOf(r: NDFRecord): (reason: string)
    ensures reason != ""
    ensures r.rejectedMessage == "" ==> reason == "Unknown"
    ensures r.rejectedMessage != "" ==> reason == r.rejectedMessage
  {
    if r.rejectedMessage == "" then "Unknown" else r.rejectedMessage
  }

  /** One count per rejected record, filed under its reason. */
  function ReasonEntries(rejected: seq<NDFRecord>): (es: seq<Entry>)
    ensures |es| == |rejected|
    ensures forall i :: 0 <= i < |rejected| ==> es[i] == Entry(ReasonOf(rejected[i]), 1.0)
  {
    seq(|rejected|, i requires 0 <= i < |rejected| => Entry(ReasonOf(rejected[i]), 1.0))
  }

  lemma {:induction false} CountsTotal(rejected: seq<NDFRecord>)
    ensures Total(ReasonEntries(rejected)) == |rejected| as real
  {
    if rejected != [] {
      var init := rejected[..|rejected| - 1];
      assert ReasonEntries(rejected)[..|rejected| - 1] == ReasonEntries(init);
      CountsTotal(init);
    }
  }

  datatype ReasonRow = ReasonRow(name: string, value: real, percentageOfRejections: real, percentageOfTotal: real)

  /** The row `rejectionReasons` builds for one reason. */
  function ReasonRowFor(name: string, value: real, totalRejections: nat, totalOperations: nat): ReasonRow {
    ReasonRow(name, value,
      if totalRejections > 0 then value / totalRejections as real * 100.0 else 0.0,
      if totalOperations > 0 then value / totalOperations as real * 100.0 else 0.0)
  }

  /** The rows before sorting, in order of first appearance. */
  function ReasonRows(keys: seq<string>, entries: seq<Entry>, totalRejections: nat, totalOperations: nat): (rows: seq<ReasonRow>)
    ensures |rows| == |keys|
    ensures forall i :: 0 <= i < |keys| ==>
              rows[i] == ReasonRowFor(keys[i], SumFor(entries, keys[i]), totalRejections, totalOperations)
  {
    seq(|keys|, i requires 0 <= i < |keys| =>
      ReasonRowFor(keys[i], SumFor(entries, keys[i]), totalRejections, totalOperations))
  }

  /** The sum of the counts. */
  function ValueTotal(rows: seq<ReasonRow>): real {
    if rows == [] then 0.0 else rows[0].value + ValueTotal(rows[1..])
  }

  lemma {:induction false} ValueTotalAppend(rows: seq<ReasonRow>, x: ReasonRow)
    ensures ValueTotal(rows + [x]) == ValueTotal(rows) + x.value
  {
    if rows != [] {
      assert (rows + [x])[1..] == rows[1..] + [x];
      ValueTotalAppend(rows[1..], x);
    }
  }

  lemma {:induction false} ReasonRowsTotal(keys: seq<string>, entries: seq<Entry>, totalRejections: nat, totalOperations: nat)
    ensures ValueTotal(ReasonRows(keys, entries, totalRejections, totalOperations)) == SumOver(keys, entries)
  {
    if keys != [] {
      var init := keys[..|keys| - 1];
      var rows := ReasonRows(keys, entries, totalRejections, totalOperations);
      assert rows == ReasonRows(init, entries, totalRejections, totalOperations) + [rows[|rows| - 1]];
      ReasonRowsTotal(init, entries, totalRejections, totalOperations);
      ValueTotalAppend(ReasonRows(init, entries, totalRejections, totalOperations), rows[|rows| - 1]);
    }
  }

  predicate SortedByValueDesc(rows: seq<ReasonRow>) {
    forall i, j :: 0 <= i < j < |rows| ==> rows[i].value >= rows[j].value
  }

  /** Places `x` before the first row whose count does not exceed its own,
      so that rows with equal counts keep their order. */
  function InsertByValue(x: ReasonRow, rows: seq<ReasonRow>): (r: seq<ReasonRow>)
    requires SortedByValueDesc(rows)
    ensures SortedByValueDesc(r)
    ensures multiset(r) == multiset(rows) + multiset{x}
    ensures ValueTotal(r) == x.value + ValueTotal(rows)
  {
    if rows == [] || x.value >= rows[0].value then [x] + rows
    else
      var tail := InsertByValue(x, rows[1..]);
      InsertKeepsHead(rows[0], x, rows[1..], tail);
      assert rows == [rows[0]] + rows[1..];
      [rows[0]] + tail
  }

  /** A row no smaller than `x` and than every row of a list stays in
      front once `x` is inserted into the list. */
  lemma InsertKeepsHead(head: ReasonRow, x: ReasonRow, rows: seq<ReasonRow>, inserted: seq<ReasonRow>)
    requires head.value >= x.value
    requires forall i :: 0 <= i < |rows| ==> head.value >= rows[i].value
    requires SortedByValueDesc(inserted)
    requires multiset(inserted) == multiset(rows) + multiset{x}
    ensures SortedByValueDesc([head] + inserted)
  {
    forall i | 0 <= i < |inserted| ensures head.value >= inserted[i].value {
      assert inserted[i] in multiset(inserted);
      assert inserted[i] in rows || inserted[i] == x;
    }
  }

  /** `.sort((a, b) => b.value - a.value)`: a stable sort by count,
      largest first. */
  function SortByValueDesc(rows: seq<ReasonRow>): (r: seq<ReasonRow>)
    ensures SortedByValueDesc(r)
    ensures multiset(r) == multiset(rows)
    ensures ValueTotal(r) == ValueTotal(rows)
  {
    if rows == [] then []
    else
      assert rows == [rows[0]] + rows[1..];
      InsertByValue(rows[0], SortByValueDesc(rows[1..]))
  }

  /** No reason names two rows. */
  predicate DistinctNames(rows: seq<ReasonRow>) {
    forall i, j :: 0 <= i < j < |rows| ==> rows[i].name != rows[j].name
  }

  /** The rows after the first keep distinct names, none of them the
      first row's. */
  lemma SplitDistinct(rows: seq<ReasonRow>)
    requires rows != [] && DistinctNames(rows)
    ensures DistinctNames(rows[1..])
    ensures forall row :: row in rows[1..] ==> row.name != rows[0].name
  {
    var rest := rows[1..];
    forall i, j | 0 <= i < j < |rest| ensures rest[i].name != rest[j].name {
      assert rest[i] == rows[i + 1] && rest[j] == rows[j + 1];
    }
    forall row | row in rest ensures row.name != rows[0].name {
      var m :| 0 <= m < |rest| && rest[m] == row;
      assert rows[m + 1] == row;
    }
  }

  /** A row under a name the others do not use keeps the names distinct. */
  lemma ConsDistinct(head: ReasonRow, rows: seq<ReasonRow>)
    requires DistinctNames(rows)
    requires forall row :: row in rows ==> row.name != head.name
    ensures DistinctNames([head] + rows)
  {
    forall i, j | 0 <= i < j < |[head] + rows| ensures ([head] + rows)[i].name != ([head] + rows)[j].name {
      assert ([head] + rows)[j] == rows[j - 1];
      if i > 0 {
        assert ([head] + rows)[i] == rows[i - 1];
      } else {
        assert rows[j - 1] in rows;
      }
    }
  }

  /** Inserting a row under a new name keeps the names distinct. */
  lemma {:induction false} InsertKeepsDistinct(x: ReasonRow, rows: seq<ReasonRow>)
    requires SortedByValueDesc(rows)
    requires DistinctNames(rows)
    requires forall row :: row in rows ==> row.name != x.name
    ensures DistinctNames(InsertByValue(x, rows))
  {
    if rows == [] || x.value >= rows[0].value {
      ConsDistinct(x, rows);
    } else {
      var rest := rows[1..];
      SplitDistinct(rows);
      InsertKeepsDistinct(x, rest);
      var tail := InsertByValue(x, rest);
      forall row | row in tail ensures row.name != rows[0].name {
        assert row in multiset(tail);
        assert row == x || row in multiset(rest);
      }
      ConsDistinct(rows[0], tail);
    }
  }

  /** Sorting keeps the names distinct. */
  lemma {:induction false} SortKeepsDistinct(rows: seq<ReasonRow>)
    requires DistinctNames(rows)
    ensures DistinctNames(SortByValueDesc(rows))
  {
    if rows != [] {
      var rest := rows[1..];
      SplitDistinct(rows);
      SortKeepsDistinct(rest);
      var sorted := SortByValueDesc(rest);
      forall row | row in sorted ensures row.name != rows[0].name {
        assert row in multiset(sorted);
      }
      InsertKeepsDistinct(rows[0], sorted);
    }
  }

  /** The rows of `rejectionReasons` before sorting. */
  function UnsortedReasons(data: seq<NDFRecord>): seq<ReasonRow> {
    var rejected := WithStatus(data, "REJECTED");
    var entries := ReasonEntries(rejected);
    ReasonRows(Keys(entries), entries, |rejected|, |data|)
  }

  /** The rows are one per reason given by a REJECTED record: every such
      reason has a row, every row names such a reason and counts the
      records giving it, no name has two rows, and the counts add up to
      the number of REJECTED records. */
  lemma UnsortedReasonsCount(data: seq<NDFRecord>)
    ensures forall row :: row in UnsortedReasons(data) ==>
              row.name != "" && row.value == SumFor(ReasonEntries(WithStatus(data, "REJECTED")), row.name)
    ensures forall row :: row in UnsortedReasons(data) ==>
              exists x :: x in WithStatus(data, "REJECTED") && ReasonOf(x) == row.name
    ensures forall x :: x in WithStatus(data, "REJECTED") ==>
              exists row :: row in UnsortedReasons(data) && row.name == ReasonOf(x)
    ensures DistinctNames(UnsortedReasons(data))
    ensures ValueTotal(UnsortedReasons(data)) == |WithStatus(data, "REJECTED")| as real
  {
    var rejected := WithStatus(data, "REJECTED");
    RowsCountTheirReason(rejected, |data|);
    RowsDistinct(rejected, |data|);
    EveryReasonHasRow(rejected, |data|);
    RowsAddUp(rejected, |data|);
  }

  lemma RowsCountTheirReason(rejected: seq<NDFRecord>, totalOperations: nat)
    ensures var entries := ReasonEntries(rejected);
            forall row :: row in ReasonRows(Keys(entries), entries, |rejected|, totalOperations) ==>
              && row.name != ""
              && row.value == SumFor(entries, row.name)
              && exists x :: x in rejected && ReasonOf(x) == row.name
  {
    var entries := ReasonEntries(rejected);
    var keys := Keys(entries);
    var rows := ReasonRows(keys, entries, |rejected|, totalOperations);
    forall row | row in rows
      ensures row.name != "" && row.value == SumFor(entries, row.name)
      ensures exists x :: x in rejected && ReasonOf(x) == row.name
    {
      var j :| 0 <= j < |rows| && rows[j] == row;
      assert keys[j] in keys;
      var i :| 0 <= i < |entries| && entries[i].key == keys[j];
      assert entries[i] == Entry(ReasonOf(rejected[i]), 1.0);
      assert rejected[i] in rejected;
    }
  }

  lemma {:induction false} RowsDistinct(rejected: seq<NDFRecord>, totalOperations: nat)
    ensures var entries := ReasonEntries(rejected);
            DistinctNames(ReasonRows(Keys(entries), entries, |rejected|, totalOperations))
  {
    var entries := ReasonEntries(rejected);
    var keys := Keys(entries);
    var rows := ReasonRows(keys, entries, |rejected|, totalOperations);
    forall i, j | 0 <= i < j < |rows| ensures rows[i].name != rows[j].name {
      assert rows[i].name == keys[i] && rows[j].name == keys[j];
    }
  }

  lemma EveryReasonHasRow(rejected: seq<NDFRecord>, totalOperations: nat)
    ensures var entries := ReasonEntries(rejected);
            forall x :: x in rejected ==>
              exists row :: row in ReasonRows(Keys(entries), entries, |rejected|, totalOperations) && row.name == ReasonOf(x)
  {
    var entries := ReasonEntries(rejected);
    var keys := Keys(entries);
    var rows := ReasonRows(keys, entries, |rejected|, totalOperations);
    forall x | x in rejected ensures exists row :: row in rows && row.name == ReasonOf(x) {
      var i :| 0 <= i < |rejected| && rejected[i] == x;
      assert entries[i].key == ReasonOf(x);
      assert ReasonOf(x) in keys;
      var j :| 0 <= j < |keys| && keys[j] == ReasonOf(x);
      assert rows[j] in rows;
    }
  }

  lemma RowsAddUp(rejected: seq<NDFRecord>, totalOperations: nat)
    ensures var entries := ReasonEntries(rejected);
            ValueTotal(ReasonRows(Keys(entries), entries, |rejected|, totalOperations)) == |rejected| as real
  {
    var entries := ReasonEntries(rejected);
    ReasonRowsTotal(Keys(entries), entries, |rejected|, totalOperations);
    GroupsAddUp(entries);
    CountsTotal(rejected);
  }

  /** `rejectionReasons`: one row per distinct reason among the REJECTED
      records (an empty message counts as "Unknown"), holding how many of
      them give that reason, sorted by that count, largest first; the
      counts add up to the number of REJECTED records. */
  method RejectionReasons(data: seq<NDFRecord>) returns (rows: seq<ReasonRow>)
    ensures data == [] ==> rows == []
    ensures SortedByValueDesc(rows)
    ensures forall row :: row in rows ==>
              row.name != "" && row.value == SumFor(ReasonEntries(WithStatus(data, "REJECTED")), row.name)
    ensures forall row :: row in rows ==> exists x :: x in WithStatus(data, "REJECTED") && ReasonOf(x) == row.name
    ensures forall x :: x in WithStatus(data, "REJECTED") ==> exists row :: row in rows && row.name == ReasonOf(x)
    ensures DistinctNames(rows)
    ensures ValueTotal(rows) == |WithStatus(data, "REJECTED")| as real
  {
    if data == [] {
      return [];
    }
    var rejected := WithStatus(data, "REJECTED");
    var entries := ReasonEntries(rejected);
    var keys, reasonCount := GroupSum(entries);
    var unsorted := seq(|keys|, i requires 0 <= i < |keys| =>
      ReasonRowFor(keys[i], reasonCount[keys[i]], |rejected|, |data|));
    assert unsorted == UnsortedReasons(data);
    rows := SortByValueDesc(unsorted);
    UnsortedReasonsCount(data);
    SameRows(rows, unsorted);
    SortKeepsDistinct(unsorted);
  }

  /** Two lists with the same rows, as multisets, have the same rows. */
  lemma SameRows(a: seq<ReasonRow>, b: seq<ReasonRow>)
    requires multiset(a) == multiset(b)
    ensures forall row :: row in a <==> row in b
  {
    forall row ensures row in a <==> row in b {
      assert row in a <==> row in multiset(a);
      assert row in b <==> row in multiset(b);
    }
  }

  // ---------------------------------------------------------------------
  // Client notional distribution

  /** `clientNotionals[r.counterparty] += r.notional` for the records that
      name a counterparty. */
  function ClientEntries(data: seq<NDFRecord>): (es: seq<Entry>)
    ensures forall i :: 0 <= i < |es| ==> es[i].key != ""
    ensures forall e :: e in es ==> exists r :: r in data && e == Entry(r.counterparty, r.notional)
    ensures forall r :: r in data && r.counterparty != "" ==> Entry(r.counterparty, r.notional) in es
  {
    if data == [] then []
    else if data[0].counterparty != "" then [Entry(data[0].counterparty, data[0].notional)] + ClientEntries(data[1..])
    else ClientEntries(data[1..])
  }

  /** The total notional of the records naming counterparty `c`. */
  function ClientNotional(data: seq<NDFRecord>, c: string): real {
    if data == [] then 0.0
    else (if data[0].counterparty == c then data[0].notional else 0.0) + ClientNotional(data[1..], c)
  }

  /** The accumulator holds, for each named client, the sum of the
      notionals of that client's records, and nothing for the empty name. */
  lemma {:induction false} ClientSums(data: seq<NDFRecord>, c: string)
    ensures c != "" ==> SumFor(ClientEntries(data), c) == ClientNotional(data, c)
    ensures c == "" ==> SumFor(ClientEntries(data), c) == 0.0
  {
    if data == [] {
    } else {
      ClientSums(data[1..], c);
      if data[0].counterparty != "" {
        SumForCons(Entry(data[0].counterparty, data[0].notional), ClientEntries(data[1..]), c);
      }
    }
  }

  /** `Object.values(clientNotionals)`: each client's total notional. */
  function ClientTotals(data: seq<NDFRecord>): seq<real> {
    var entries := ClientEntries(data);
    var keys := Keys(entries);
    seq(|keys|, i requires 0 <= i < |keys| => SumFor(entries, keys[i]))
  }

  /** One total per client that names a counterparty, in first-seen
      order, each the sum of that client's notionals. */
  lemma {:induction false} ClientTotalsMeaning(data: seq<NDFRecord>)
    ensures var clients := Keys(ClientEntries(data));
            && |ClientTotals(data)| == |clients|
            && (forall i :: 0 <= i < |clients| ==> clients[i] != "" && ClientTotals(data)[i] == ClientNotional(data, clients[i]))
            && (forall r :: r in data && r.counterparty != "" ==> r.counterparty in clients)
  {
    var entries := ClientEntries(data);
    var clients := Keys(entries);
    forall i | 0 <= i < |clients|
      ensures clients[i] != "" && ClientTotals(data)[i] == ClientNotional(data, clients[i])
    {
      assert clients[i] in clients;
      ClientSums(data, clients[i]);
    }
    forall r | r in data && r.counterparty != "" ensures r.counterparty in clients {
      assert Entry(r.counterparty, r.notional) in entries;
      var j :| 0 <= j < |entries| && entries[j] == Entry(r.counterparty, r.notional);
    }
  }

  datatype NotionalRange = NotionalRange(rangeLabel: string, min: real, max: real, count: nat)

  /** `ranges` as the page declares them: there is no 5k-10k range. */
  const Ranges: seq<NotionalRange> := [
    NotionalRange("0-1k", 0.0, 1000.0, 0),
    NotionalRange("1k-5k", 1000.0, 5000.0, 0),
    NotionalRange("10k-50k", 10000.0, 50000.0, 0),
    NotionalRange("50k-100k", 50000.0, 100000.0, 0)
  ]

  /** The first range from `from` on with `min <= x < max`. */
  function FirstRange(x: real, from: nat): Option<nat>
    requires from <= |Ranges|
    decreases |Ranges| - from
  {
    if from == |Ranges| then None
    else if Ranges[from].min <= x < Ranges[from].max then Some(from)
    else FirstRange(x, from + 1)
  }

  /** The range a client's total is counted in: the only one holding it,
      and none for a negative total, one in [5000, 10000), or one of
      100000 or more. */
  function RangeOf(x: real): (r: Option<nat>)
    ensures r.None? <==> x < 0.0 || (5000.0 <= x < 10000.0) || 100000.0 <= x
    ensures r.Some? ==> r.value < |Ranges| && Ranges[r.value].min <= x < Ranges[r.value].max
    ensures r.Some? ==> forall j :: 0 <= j < |Ranges| && j != r.value ==> !(Ranges[j].min <= x < Ranges[j].max)
  {
    FirstRange(x, 0)
  }

  /** How many totals are counted in range `j`. */
  function CountIn(totals: seq<real>, j: nat): nat {
    if totals == [] then 0
    else CountIn(totals[..|totals| - 1], j) + (if RangeOf(totals[|totals| - 1]) == Some(j) then 1 else 0)
  }

  /** How many totals fall in no range. */
  function Unranged(totals: seq<real>): nat {
    if totals == [] then 0
    else Unranged(totals[..|totals| - 1]) + (if RangeOf(totals[|totals| - 1]).None? then 1 else 0)
  }

  /** Every client is counted in exactly one range or in none. */
  lemma {:induction false} HistogramPartition(totals: seq<real>)
    ensures CountIn(totals, 0) + CountIn(totals, 1) + CountIn(totals, 2) + CountIn(totals, 3) + Unranged(totals) == |totals|
  {
    if totals != [] {
      HistogramPartition(totals[..|totals| - 1]);
    }
  }

  /** The `for (const range of ranges)` loop for one client: the first
      range holding its total counts it, and the search stops there. */
  method CountClient(ranges: seq<NotionalRange>, notional: real) returns (counted: seq<NotionalRange>)
    requires |ranges| == |Ranges|
    requires forall k :: 0 <= k < |Ranges| ==> ranges[k].min == Ranges[k].min && ranges[k].max == Ranges[k].max
    ensures |counted| == |ranges|
    ensures forall k :: 0 <= k < |ranges| ==>
              counted[k] == ranges[k].(count := ranges[k].count + if RangeOf(notional) == Some(k) then 1 else 0)
  {
    counted := ranges;
    var j := 0;
    while j < |counted|
      invariant 0 <= j <= |counted| == |Ranges|
      invariant FirstRange(notional, j) == RangeOf(notional)
      invariant counted == ranges
    {
      if counted[j].min <= notional && notional < counted[j].max {
        counted := counted[j := counted[j].(count := counted[j].count + 1)];
        break;
      }
      j := j + 1;
    }
  }

  /** `clientNotionalDistribution`: nothing for no data; otherwise the four
      ranges, each counting the clients whose total notional it holds. */
  method ClientNotionalDistribution(data: seq<NDFRecord>) returns (ranges: seq<NotionalRange>)
    ensures data == [] ==> ranges == []
    ensures data != [] ==> |ranges| == |Ranges|
    ensures data != [] ==> forall j :: 0 <= j < |Ranges| ==>
              ranges[j] == Ranges[j].(count := CountIn(ClientTotals(data), j))
  {
    if data == [] {
      return [];
    }
    var entries := ClientEntries(data);
    var keys, clientNotionals := GroupSum(entries);
    var totals := seq(|keys|, i requires 0 <= i < |keys| => clientNotionals[keys[i]]);
    assert totals == ClientTotals(data);
    ranges := CountAll(totals);
  }

  /** The `Object.values(clientNotionals).forEach` loop: each total is
      counted in the range holding it, starting from the declared ranges. */
  method CountAll(totals: seq<real>) returns (ranges: seq<NotionalRange>)
    ensures |ranges| == |Ranges|
    ensures forall j :: 0 <= j < |Ranges| ==> ranges[j] == Ranges[j].(count := CountIn(totals, j))
  {
    ranges := Ranges;
    for i := 0 to |totals|
      invariant |ranges| == |Ranges|
      invariant forall j :: 0 <= j < |Ranges| ==> ranges[j] == Ranges[j].(count := CountIn(totals[..i], j))
    {
      assert totals[..i + 1][..i] == totals[..i];
      ranges := CountClient(ranges, totals[i]);
    }
    assert totals[..|totals|] == totals;
  }
}
