/** The derived-field calculators of csvParser.ts: tenor in days, the two
    bucket ladders, markup in basis points, P&L in BRL and the side flag. */
module DerivedFields {
  import opened Wrappers
  import opened JsText

  /** Milliseconds in a day, `1000 * 60 * 60 * 24` */
  const DayMs: int := 86400000

  /** `calculateTenorDays`: whole days from quote to maturity, rounded up;
      null for an invalid date or a maturity a day or more before the quote.
      Dates are millisecond timestamps, None standing for an Invalid Date. */
  function TenorDays(rfq: Option<int>, maturity: Option<int>): (r: Option<int>)
    ensures r.None? <==> rfq.None? || maturity.None? || maturity.value - rfq.value <= -DayMs
    ensures r.Some? ==> r.value >= 0
    ensures r.Some? ==> (r.value - 1) * DayMs < maturity.value - rfq.value <= r.value * DayMs
  {
    if rfq.None? || maturity.None? then None
    else
      var diff := maturity.value - rfq.value;
      var days := CeilDiv(diff, DayMs);
      if days >= 0 then Some(days) else None
  }

  /** `Math.ceil(a / d)` for a positive divisor */
  function CeilDiv(a: int, d: int): (c: int)
    requires d > 0
    ensures (c - 1) * d < a <= c * d
  {
    var q := (-a) / d;
    assert -a == d * q + (-a) % d;
    -q
  }

  /** The labels `getTenorBucket` returns, in ladder order ("N/A" aside). */
  const TenorLabels: seq<string> :=
    ["0-29D", "30-59D", "60-89D", "90-119D", "150-179D", "180-209D", "≥210D"]

  /** `getTenorBucket`. There is no "120-149D" rung: days 120 to 179 all
      land in "150-179D". */
  function TenorBucket(dc: Option<int>): (r: string)
    ensures dc.None? <==> r == "N/A"
    ensures dc.Some? ==> r == TenorLabels[TenorRung(dc.value)]
  {
    if dc.None? then "N/A"
    else if dc.value < 30 then "0-29D"
    else if dc.value < 60 then "30-59D"
    else if dc.value < 90 then "60-89D"
    else if dc.value < 120 then "90-119D"
    else if dc.value < 180 then "150-179D"
    else if dc.value < 210 then "180-209D"
    else "≥210D"
  }

  /** The number of ladder thresholds (30, 60, 90, 120, 180, 210) at or
      below `d`: an independent statement of which rung `d` is on. */
  function TenorRung(d: int): (k: nat)
    ensures k < |TenorLabels|
  {
    (if d >= 30 then 1 else 0) + (if d >= 60 then 1 else 0) + (if d >= 90 then 1 else 0)
      + (if d >= 120 then 1 else 0) + (if d >= 180 then 1 else 0) + (if d >= 210 then 1 else 0)
  }

  /** Longer tenors never land on a lower rung. */
  lemma TenorBucketMonotone(a: int, b: int)
    requires a <= b
    ensures TenorRung(a) <= TenorRung(b)
  {
  }

  /** The gap: every tenor from 120 to 179 days is labelled "150-179D". */
  lemma TenorGap(d: int)
    ensures TenorBucket(Some(d)) == "150-179D" <==> 120 <= d < 180
  {
    assert TenorLabels[4] == "150-179D";
  }

  /** The labels `getNotionalBucket` returns, in ladder order. */
  const NotionalLabels: seq<string> := ["0-100k", "100k-500k", "500k-1M", ">1M"]

  /** `getNotionalBucket` */
  function NotionalBucket(notional: real): (r: string)
    ensures r in NotionalLabels
    ensures r == NotionalLabels[NotionalRung(notional)]
  {
    if notional < 100000.0 then "0-100k"
    else if notional < 500000.0 then "100k-500k"
    else if notional < 1000000.0 then "500k-1M"
    else ">1M"
  }

  function NotionalRung(n: real): (k: nat)
    ensures k < |NotionalLabels|
  {
    (if n >= 100000.0 then 1 else 0) + (if n >= 500000.0 then 1 else 0)
      + (if n >= 1000000.0 then 1 else 0)
  }

  /** Larger notionals never land in a lower bucket. */
  lemma NotionalBucketMonotone(a: real, b: real)
    requires a <= b
    ensures NotionalRung(a) <= NotionalRung(b)
  {
  }

  /** `calculateMarkupBps`: the forward-rate formula whenever it can be
      computed, only otherwise the yield formula, otherwise null. */
  function MarkupBps(fwdClient: Option<real>, fwd: Option<real>,
                     yieldClient: Option<real>, yieldCcy: Option<real>): (r: Option<real>)
    ensures fwdClient.Some? && fwd.Some? && fwd.value != 0.0 ==>
              r.Some? && fwd.value + fwd.value * r.value / 10000.0 == fwdClient.value
    ensures !(fwdClient.Some? && fwd.Some? && fwd.value != 0.0) ==>
              (r.Some? <==> yieldClient.Some? && yieldCcy.Some?)
    ensures !(fwdClient.Some? && fwd.Some? && fwd.value != 0.0) && r.Some? ==>
              yieldCcy.value + r.value / 10000.0 == yieldClient.value
  {
    if fwdClient.Some? && fwd.Some? && fwd.value != 0.0 then
      Some((fwdClient.value - fwd.value) / fwd.value * 10000.0)
    else if yieldClient.Some? && yieldCcy.Some? then
      Some((yieldClient.value - yieldCcy.value) * 10000.0)
    else None
  }

  /** The fallback is never blended in: when the forward formula applies,
      the yields do not matter. */
  lemma MarkupIgnoresYieldsWhenForwardsUsable(fwdClient: real, fwd: real,
      y1: Option<real>, y2: Option<real>, y3: Option<real>, y4: Option<real>)
    requires fwd != 0.0
    ensures MarkupBps(Some(fwdClient), Some(fwd), y1, y2) == MarkupBps(Some(fwdClient), Some(fwd), y3, y4)
  {
  }

  /** `parity.toUpperCase().includes('BRL')` */
  predicate IsBrlPair(parity: string) {
    Includes(ToUpper(parity), "BRL")
  }

  /** P&L in the quote currency: client rate against cost rate, signed by
      side. */
  function QuotePl(isBuy: bool, fwdClient: real, fwd: real, notional: real): real {
    if isBuy then (fwdClient - fwd) * notional else (fwd - fwdClient) * notional
  }

  /** `calculatePLBrl` */
  function PlBrl(isBuy: bool, fwdClient: Option<real>, fwd: Option<real>, notional: real,
                 parity: string, spotFx: Option<real>): (r: Option<real>)
    ensures r.None? <==> fwdClient.None? || fwd.None?
    ensures r.Some? && !IsBrlPair(parity) && spotFx.Some? && spotFx.value != 0.0 ==>
              r.value == QuotePl(isBuy, fwdClient.value, fwd.value, notional) * spotFx.value
    ensures r.Some? && !(!IsBrlPair(parity) && spotFx.Some? && spotFx.value != 0.0) ==>
              r.value == QuotePl(isBuy, fwdClient.value, fwd.value, notional)
  {
    if fwdClient.None? || fwd.None? then None
    else
      var pl := QuotePl(isBuy, fwdClient.value, fwd.value, notional);
      if !IsBrlPair(parity) && spotFx.Some? && spotFx.value != 0.0 then Some(pl * spotFx.value)
      else Some(pl)
  }

  /** A buy and a sell on the same rates have opposite P&L. */
  lemma PlBuyNegatesSell(fwdClient: Option<real>, fwd: Option<real>, notional: real,
                         parity: string, spotFx: Option<real>)
    ensures PlBrl(true, fwdClient, fwd, notional, parity, spotFx).Some?
            == PlBrl(false, fwdClient, fwd, notional, parity, spotFx).Some?
    ensures PlBrl(true, fwdClient, fwd, notional, parity, spotFx).Some? ==>
            PlBrl(true, fwdClient, fwd, notional, parity, spotFx).value
            == -PlBrl(false, fwdClient, fwd, notional, parity, spotFx).value
  {
    if fwdClient.Some? && fwd.Some? {
      var b := QuotePl(true, fwdClient.value, fwd.value, notional);
      var s := QuotePl(false, fwdClient.value, fwd.value, notional);
      assert b == -s;
      if !IsBrlPair(parity) && spotFx.Some? && spotFx.value != 0.0 {
        assert b * spotFx.value == -(s * spotFx.value);
      }
    }
  }

  /** A case variant of "COMPRA" or "BUY". */
  predicate IsBuyWord(w: string) {
    ToUpper(w) == "COMPRA" || ToUpper(w) == "BUY"
  }

  /** `normalizeSide`: true for a buy, false for everything else. */
  function NormalizeSide(side: string): (isBuy: bool) {
    IsBuyWord(Trim(side))
  }

  /** A side reads as a buy exactly when, apart from surrounding whitespace,
      it is "COMPRA" or "BUY" in any letter case. */
  lemma {:induction false} NormalizeSideMeaning(side: string)
    ensures NormalizeSide(side) <==>
            exists i, j :: 0 <= i <= j <= |side| && AllWhitespace(side[..i])
                           && AllWhitespace(side[j..]) && IsBuyWord(side[i..j])
  {
    TrimSplits(side);
    if i, j :| 0 <= i <= j <= |side| && AllWhitespace(side[..i])
               && AllWhitespace(side[j..]) && IsBuyWord(side[i..j]) {
      PaddedBuyWord(side, i, j);
    }
  }

  /** A buy word padded with whitespace reads as a buy. */
  lemma {:induction false} PaddedBuyWord(side: string, i: nat, j: nat)
    requires i <= j <= |side|
    requires AllWhitespace(side[..i]) && AllWhitespace(side[j..]) && IsBuyWord(side[i..j])
    ensures NormalizeSide(side)
  {
    var w := side[i..j];
    BuyWordEdges(w);
    assert side == side[..i] + w + side[j..];
    TrimOfPadded(side[..i], w, side[j..]);
  }

  lemma {:induction false} BuyWordEdges(w: string)
    requires IsBuyWord(w)
    ensures w != [] && !IsJsWhitespace(w[0]) && !IsJsWhitespace(w[|w| - 1])
  {
    var u := ToUpper(w);
    assert 'A' <= u[0] <= 'Z' && 'A' <= u[|w| - 1] <= 'Z';
  }

  /** Forward 100 against client forward 101 is a 100 bp markup; with a
      zero forward the yields 0.05 and 0.04 give 100 bp instead. */
  lemma MarkupExamples()
    ensures MarkupBps(Some(101.0), Some(100.0), None, None) == Some(100.0)
    ensures MarkupBps(Some(101.0), Some(0.0), Some(0.05), Some(0.04)) == Some(100.0)
  {
  }

  /** A USD/BRL buy at 5.10 against a 5.00 forward on 1000 gains 100; the
      sell on the same rates loses 100. */
  lemma PlExamples(parity: string)
    requires parity == "USD/BRL"
    ensures PlBrl(true, Some(5.10), Some(5.00), 1000.0, parity, Some(5.0)) == Some(100.0)
    ensures PlBrl(false, Some(5.10), Some(5.00), 1000.0, parity, Some(5.0)) == Some(-100.0)
  {
    assert OccursAt(ToUpper(parity), "BRL", 4) by {
      assert ToUpper(parity)[4..7] == "BRL";
    }
  }
}
