/** The row normalizers and ingestion of csvParser.ts: one parsed CSV row
    becomes one NDFRecord, either through the fixed export headers or
    through a user-confirmed ColumnMapping. */
module CsvParser {
  import opened Wrappers
  import opened JsText
  import opened BrazilianNumber
  import opened DerivedFields
  import opened ColumnMapping

  /** A row as the CSV reader hands it over: header to cell text. A header
      the row has no cell for is absent (JavaScript `undefined`). */
  type Row = map<string, string>

  /** `new Date(text).getTime()`, None for an Invalid Date. */
  type DateParser = string -> Option<int>

  /** What a normalizer throws: reading `trim` or `toUpperCase` of
      `undefined`. */
  datatype RowError = TypeError

  /** NDFRecord of types/ndf.ts. Dates are millisecond timestamps (None:
      Invalid Date); numbers are reals (None: null). */
  datatype NDFRecord = NDFRecord(
    rfqTimestamp: Option<int>,
    maturityDate: Option<int>,
    status: string,
    rejectedMessage: string,
    cnpj: string,
    counterparty: string,
    product: string,
    tenorDc: Option<int>,
    tenorBucket: string,
    currency: string,
    parity: string,
    notional: real,
    notionalBucket: string,
    spotCost: Option<real>,
    spotFx: Option<real>,
    yieldCcy: Option<real>,
    yieldClient: Option<real>,
    yieldBrlCost: Option<real>,
    yieldBrlClient: Option<real>,
    fwd: Option<real>,
    rfqChannel: string,
    fwdClient: Option<real>,
    sideBlotter: string,
    side: string,
    isBuy: bool,
    isActionable: bool,
    markupBps: Option<real>,
    plBrl: Option<real>)

  /** The statuses that count as a decision reached. */
  predicate IsActionableStatus(status: string) {
    status == "DEAL" || status == "NOTH.DONE"
  }

  /** The record's derived fields agree with the fields they derive from:
      what both normalizers guarantee of every record they return. */
  predicate WellDerived(r: NDFRecord) {
    && (r.isActionable <==> IsActionableStatus(r.status))
    && r.tenorDc == TenorDays(r.rfqTimestamp, r.maturityDate)
    && r.tenorBucket == TenorBucket(r.tenorDc)
    && r.notionalBucket == NotionalBucket(r.notional)
    && r.markupBps == MarkupBps(r.fwdClient, r.fwd, r.yieldClient, r.yieldCcy)
    && r.plBrl == PlBrl(r.isBuy, r.fwdClient, r.fwd, r.notional, r.parity, r.spotFx)
  }

  /** The values a row supplies once its columns are resolved, before the
      derived fields are computed. */
  datatype RowFields = RowFields(
    rfqTimestamp: Option<int>,
    maturityDate: Option<int>,
    status: string,
    rejectedMessage: string,
    cnpj: string,
    counterparty: string,
    product: string,
    currency: string,
    rfqChannel: string,
    sideBlotter: string,
    side: string,
    /** the parity handed to `calculatePLBrl` (None: `undefined`) */
    parityArg: Option<string>,
    /** the parity stored in the record */
    parity: string,
    notional: real,
    spotCost: Option<real>,
    spotFx: Option<real>,
    yieldCcy: Option<real>,
    yieldClient: Option<real>,
    yieldBrlCost: Option<real>,
    yieldBrlClient: Option<real>,
    fwd: Option<real>,
    fwdClient: Option<real>,
    /** the side flag (None: `normalizeSide` was handed `undefined`) */
    isBuy: Option<bool>)

  /** Whether building the record from these fields throws: `normalizeSide`
      of `undefined`, or `calculatePLBrl` reaching `undefined.toUpperCase()`
      once both forwards are known. */
  predicate Throws(f: RowFields) {
    f.isBuy.None? || (f.fwdClient.Some? && f.fwd.Some? && f.parityArg.None?)
  }

  /** Every record field that is not derived holds the value read for it. */
  predicate CopiesFields(r: NDFRecord, f: RowFields) {
    && r.rfqTimestamp == f.rfqTimestamp && r.maturityDate == f.maturityDate
    && r.status == f.status && r.rejectedMessage == f.rejectedMessage
    && r.cnpj == f.cnpj && r.counterparty == f.counterparty
    && r.product == f.product && r.currency == f.currency
    && r.parity == f.parity && r.notional == f.notional
    && r.spotCost == f.spotCost && r.spotFx == f.spotFx
    && r.yieldCcy == f.yieldCcy && r.yieldClient == f.yieldClient
    && r.yieldBrlCost == f.yieldBrlCost && r.yieldBrlClient == f.yieldBrlClient
    && r.fwd == f.fwd && r.fwdClient == f.fwdClient
    && r.rfqChannel == f.rfqChannel && r.sideBlotter == f.sideBlotter
    && r.side == f.side
  }

  /** The derivation both normalizers share. */
  function Derive(f: RowFields): (r: Result<NDFRecord, RowError>)
    ensures r.Failure? <==> Throws(f)
    ensures r.Success? ==> WellDerived(r.value)
    ensures r.Success? ==> r.value.tenorDc.Some? ==> r.value.tenorDc.value >= 0
    ensures r.Success? ==> CopiesFields(r.value, f) && Some(r.value.isBuy) == f.isBuy
    requires f.parityArg.Some? ==> f.parity == f.parityArg.value
  {
    if Throws(f) then Failure(TypeError)
    else
      var tenorDc := TenorDays(f.rfqTimestamp, f.maturityDate);
      Success(NDFRecord(
        f.rfqTimestamp, f.maturityDate, f.status, f.rejectedMessage, f.cnpj,
        f.counterparty, f.product, tenorDc, TenorBucket(tenorDc), f.currency, f.parity,
        f.notional, NotionalBucket(f.notional), f.spotCost, f.spotFx, f.yieldCcy,
        f.yieldClient, f.yieldBrlCost, f.yieldBrlClient, f.fwd, f.rfqChannel, f.fwdClient,
        f.sideBlotter, f.side, f.isBuy.value, IsActionableStatus(f.status),
        MarkupBps(f.fwdClient, f.fwd, f.yieldClient, f.yieldCcy),
        PlBrl(f.isBuy.value, f.fwdClient, f.fwd, f.notional, f.parityArg.GetOr(""), f.spotFx)))
  }

  /** `row[h]` */
  function Cell(row: Row, h: string): Option<string> {
    if h in row then Some(row[h]) else None
  }

  /** `row[h] || ""` */
  function TextOr(row: Row, h: string): string {
    if h in row then row[h] else ""
  }

  /** `parseBrazilianNumber(row[h])` */
  function NumberAt(row: Row, h: string): Option<real> {
    ParseBrazilianNumber(if h in row then Text(row[h]) else Undefined)
  }

  /** `new Date(row[h])`: `new Date(undefined)` is an Invalid Date. */
  function DateAt(parseDate: DateParser, row: Row, h: string): Option<int> {
    if h in row then parseDate(row[h]) else None
  }

  /** The text `parseNDFRow` hands to `normalizeSide`:
      `row["Side"] || row["Side (Blotter)"]`. */
  function FixedSideText(row: Row): Option<string> {
    if TextOr(row, "Side") != "" then Some(row["Side"]) else Cell(row, "Side (Blotter)")
  }

  /** Column resolution of `parseNDFRow`: fixed header names. */
  function FixedFields(row: Row, parseDate: DateParser): RowFields {
    var side := FixedSideText(row);
    RowFields(
      DateAt(parseDate, row, "RFQ Timestamp"),
      DateAt(parseDate, row, "Maturity Date"),
      TextOr(row, "Status"),
      TextOr(row, "Rejected message"),
      TextOr(row, "CNPJ"),
      TextOr(row, "Counterparty"),
      TextOr(row, "Product"),
      TextOr(row, "Currency"),
      TextOr(row, "rfq_channel"),
      TextOr(row, "Side (Blotter)"),
      TextOr(row, "Side"),
      Cell(row, "Parity"),
      TextOr(row, "Parity"),
      NumberAt(row, "Notional").GetOr(0.0),
      NumberAt(row, "Spot Cost (Sett. Rate)"),
      NumberAt(row, "Spot FX"),
      NumberAt(row, "Yield (CCY)"),
      NumberAt(row, "Yield (Client)"),
      NumberAt(row, "Yield (BRL) cost rate"),
      NumberAt(row, "Yield (BRL) client rate"),
      NumberAt(row, "FWD"),
      NumberAt(row, "FWD-Client"),
      if side.Some? then Some(NormalizeSide(side.value)) else None)
  }

  /** `parseNDFRow` */
  function ParseNDFRow(row: Row, parseDate: DateParser): (r: Result<NDFRecord, RowError>)
    ensures r.Failure? <==>
              FixedSideText(row).None?
              || (NumberAt(row, "FWD-Client").Some? && NumberAt(row, "FWD").Some? && "Parity" !in row)
    ensures r.Success? ==> WellDerived(r.value)
    ensures r.Success? ==> r.value.status == TextOr(row, "Status")
    ensures r.Success? ==> r.value.isBuy == NormalizeSide(FixedSideText(row).value)
    ensures r.Success? && NumberAt(row, "Notional").None? ==> r.value.notional == 0.0
    ensures r.Success? ==>
      && r.value.rfqTimestamp == DateAt(parseDate, row, "RFQ Timestamp")
      && r.value.maturityDate == DateAt(parseDate, row, "Maturity Date")
    ensures r.Success? ==>
      && r.value.rejectedMessage == TextOr(row, "Rejected message")
      && r.value.cnpj == TextOr(row, "CNPJ")
      && r.value.counterparty == TextOr(row, "Counterparty")
      && r.value.product == TextOr(row, "Product")
      && r.value.currency == TextOr(row, "Currency")
      && r.value.parity == TextOr(row, "Parity")
      && r.value.rfqChannel == TextOr(row, "rfq_channel")
      && r.value.sideBlotter == TextOr(row, "Side (Blotter)")
      && r.value.side == TextOr(row, "Side")
    ensures r.Success? ==>
      && r.value.notional == NumberAt(row, "Notional").GetOr(0.0)
      && r.value.spotCost == NumberAt(row, "Spot Cost (Sett. Rate)")
      && r.value.spotFx == NumberAt(row, "Spot FX")
      && r.value.yieldCcy == NumberAt(row, "Yield (CCY)")
      && r.value.yieldClient == NumberAt(row, "Yield (Client)")
      && r.value.yieldBrlCost == NumberAt(row, "Yield (BRL) cost rate")
      && r.value.yieldBrlClient == NumberAt(row, "Yield (BRL) client rate")
      && r.value.fwd == NumberAt(row, "FWD")
      && r.value.fwdClient == NumberAt(row, "FWD-Client")
    ensures r.Success? && DateAt(parseDate, row, "Maturity Date").None? ==>
              r.value.tenorDc.None? && r.value.tenorBucket == "N/A"
  {
    Derive(FixedFields(row, parseDate))
  }

  /** `row[mapping.f]` unguarded: an unmapped key reads the property
      "undefined", the string JavaScript makes of an `undefined` key. */
  function KeyFor(m: Mapping, f: Field): string {
    if f in m then m[f] else "undefined"
  }

  /** `mapping.f ? row[mapping.f] || "" : ""` */
  function MappedText(row: Row, m: Mapping, f: Field): (s: string)
    ensures !IsMapped(m, f) ==> s == ""
    ensures IsMapped(m, f) ==> s == TextOr(row, m[f])
  {
    if IsMapped(m, f) then TextOr(row, m[f]) else ""
  }

  /** `mapping.f ? parseBrazilianNumber(row[mapping.f]) : null` */
  function MappedNumber(row: Row, m: Mapping, f: Field): (x: Option<real>)
    ensures !IsMapped(m, f) ==> x.None?
    ensures IsMapped(m, f) ==> x == NumberAt(row, m[f])
  {
    if IsMapped(m, f) then NumberAt(row, m[f]) else None
  }

  /** `(row[mapping.status] || "QUOTE")` */
  function MappedStatus(row: Row, m: Mapping): (s: string)
    ensures s != ""
    ensures TextOr(row, KeyFor(m, Status)) == "" ==> s == "QUOTE"
    ensures TextOr(row, KeyFor(m, Status)) != "" ==> s == TextOr(row, KeyFor(m, Status))
  {
    var cell := TextOr(row, KeyFor(m, Status));
    if cell == "" then "QUOTE" else cell
  }

  /** `mapping.parity ? row[mapping.parity] : ""` */
  function MappedParity(row: Row, m: Mapping): Option<string> {
    if IsMapped(m, Parity) then Cell(row, m[Parity]) else Some("")
  }

  /** `mapping.side ? normalizeSide(row[mapping.side]) : true` */
  function MappedIsBuy(row: Row, m: Mapping): (b: Option<bool>)
    ensures !IsMapped(m, Side) ==> b == Some(true)
    ensures IsMapped(m, Side) ==> (b.Some? <==> m[Side] in row)
    ensures IsMapped(m, Side) && m[Side] in row ==> b == Some(NormalizeSide(row[m[Side]]))
  {
    if !IsMapped(m, Side) then Some(true)
    else if m[Side] in row then Some(NormalizeSide(row[m[Side]]))
    else None
  }

  /** Column resolution of `parseNDFRowWithMapping`. */
  function MappedFields(row: Row, m: Mapping, parseDate: DateParser): (f: RowFields)
    ensures f.parityArg.Some? ==> f.parity == f.parityArg.value
    ensures Throws(f) <==>
              (IsMapped(m, Side) && m[Side] !in row)
              || (MappedNumber(row, m, FwdClient).Some? && MappedNumber(row, m, Fwd).Some?
                  && IsMapped(m, Parity) && m[Parity] !in row)
    ensures
      && f.rejectedMessage == (if IsMapped(m, RejectedMessage) then TextOr(row, m[RejectedMessage]) else "")
      && f.cnpj == (if IsMapped(m, Cnpj) then TextOr(row, m[Cnpj]) else "")
      && f.counterparty == (if IsMapped(m, Counterparty) then TextOr(row, m[Counterparty]) else "")
      && f.product == (if IsMapped(m, Product) then TextOr(row, m[Product]) else "")
      && f.currency == (if IsMapped(m, Currency) then TextOr(row, m[Currency]) else "")
      && f.rfqChannel == (if IsMapped(m, RfqChannel) then TextOr(row, m[RfqChannel]) else "")
      && f.sideBlotter == (if IsMapped(m, SideBlotter) then TextOr(row, m[SideBlotter]) else "")
      && f.side == (if IsMapped(m, Side) then TextOr(row, m[Side]) else "")
      && f.parity == (if IsMapped(m, Parity) then TextOr(row, m[Parity]) else "")
    ensures
      && f.spotCost == (if IsMapped(m, SpotCost) then NumberAt(row, m[SpotCost]) else None)
      && f.spotFx == (if IsMapped(m, SpotFx) then NumberAt(row, m[SpotFx]) else None)
      && f.yieldCcy == (if IsMapped(m, YieldCcy) then NumberAt(row, m[YieldCcy]) else None)
      && f.yieldClient == (if IsMapped(m, YieldClient) then NumberAt(row, m[YieldClient]) else None)
      && f.yieldBrlCost == (if IsMapped(m, YieldBrlCost) then NumberAt(row, m[YieldBrlCost]) else None)
      && f.yieldBrlClient == (if IsMapped(m, YieldBrlClient) then NumberAt(row, m[YieldBrlClient]) else None)
      && f.fwd == (if IsMapped(m, Fwd) then NumberAt(row, m[Fwd]) else None)
      && f.fwdClient == (if IsMapped(m, FwdClient) then NumberAt(row, m[FwdClient]) else None)
    ensures
      && f.notional == (if IsMapped(m, Notional) then NumberAt(row, m[Notional]).GetOr(0.0) else 0.0)
      && f.rfqTimestamp == DateAt(parseDate, row, KeyFor(m, RfqTimestamp))
      && f.maturityDate == DateAt(parseDate, row, KeyFor(m, MaturityDate))
      && f.status == (if TextOr(row, KeyFor(m, Status)) == "" then "QUOTE" else TextOr(row, KeyFor(m, Status)))
    ensures IsMapped(m, Side) && m[Side] in row ==> f.isBuy == Some(NormalizeSide(row[m[Side]]))
    ensures !IsMapped(m, Side) ==> f.isBuy == Some(true)
  {
    var parity := MappedParity(row, m);
    RowFields(
      DateAt(parseDate, row, KeyFor(m, RfqTimestamp)),
      DateAt(parseDate, row, KeyFor(m, MaturityDate)),
      MappedStatus(row, m),
      MappedText(row, m, RejectedMessage),
      MappedText(row, m, Cnpj),
      MappedText(row, m, Counterparty),
      MappedText(row, m, Product),
      MappedText(row, m, Currency),
      MappedText(row, m, RfqChannel),
      MappedText(row, m, SideBlotter),
      MappedText(row, m, Side),
      parity,
      parity.GetOr(""),
      MappedNumber(row, m, Notional).GetOr(0.0),
      MappedNumber(row, m, SpotCost),
      MappedNumber(row, m, SpotFx),
      MappedNumber(row, m, YieldCcy),
      MappedNumber(row, m, YieldClient),
      MappedNumber(row, m, YieldBrlCost),
      MappedNumber(row, m, YieldBrlClient),
      MappedNumber(row, m, Fwd),
      MappedNumber(row, m, FwdClient),
      MappedIsBuy(row, m))
  }

  /** `parseNDFRowWithMapping` */
  function ParseNDFRowWithMapping(row: Row, m: Mapping, parseDate: DateParser): (r: Result<NDFRecord, RowError>)
    ensures r.Failure? <==>
              (IsMapped(m, Side) && m[Side] !in row)
              || (MappedNumber(row, m, FwdClient).Some? && MappedNumber(row, m, Fwd).Some?
                  && IsMapped(m, Parity) && m[Parity] !in row)
    ensures r.Success? ==> WellDerived(r.value)
    ensures r.Success? ==> r.value.status != ""
    ensures r.Success? && TextOr(row, KeyFor(m, Status)) == "" ==> r.value.status == "QUOTE"
    ensures r.Success? && !IsMapped(m, Side) ==> r.value.isBuy
    ensures r.Success? ==>
      && r.value.rejectedMessage == (if IsMapped(m, RejectedMessage) then TextOr(row, m[RejectedMessage]) else "")
      && r.value.cnpj == (if IsMapped(m, Cnpj) then TextOr(row, m[Cnpj]) else "")
      && r.value.counterparty == (if IsMapped(m, Counterparty) then TextOr(row, m[Counterparty]) else "")
      && r.value.product == (if IsMapped(m, Product) then TextOr(row, m[Product]) else "")
      && r.value.currency == (if IsMapped(m, Currency) then TextOr(row, m[Currency]) else "")
      && r.value.rfqChannel == (if IsMapped(m, RfqChannel) then TextOr(row, m[RfqChannel]) else "")
      && r.value.sideBlotter == (if IsMapped(m, SideBlotter) then TextOr(row, m[SideBlotter]) else "")
      && r.value.side == (if IsMapped(m, Side) then TextOr(row, m[Side]) else "")
      && r.value.parity == (if IsMapped(m, Parity) then TextOr(row, m[Parity]) else "")
    ensures r.Success? ==>
      && r.value.spotCost == (if IsMapped(m, SpotCost) then NumberAt(row, m[SpotCost]) else None)
      && r.value.spotFx == (if IsMapped(m, SpotFx) then NumberAt(row, m[SpotFx]) else None)
      && r.value.yieldCcy == (if IsMapped(m, YieldCcy) then NumberAt(row, m[YieldCcy]) else None)
      && r.value.yieldClient == (if IsMapped(m, YieldClient) then NumberAt(row, m[YieldClient]) else None)
      && r.value.yieldBrlCost == (if IsMapped(m, YieldBrlCost) then NumberAt(row, m[YieldBrlCost]) else None)
      && r.value.yieldBrlClient == (if IsMapped(m, YieldBrlClient) then NumberAt(row, m[YieldBrlClient]) else None)
      && r.value.fwd == (if IsMapped(m, Fwd) then NumberAt(row, m[Fwd]) else None)
      && r.value.fwdClient == (if IsMapped(m, FwdClient) then NumberAt(row, m[FwdClient]) else None)
    ensures r.Success? ==>
      && r.value.notional == (if IsMapped(m, Notional) then NumberAt(row, m[Notional]).GetOr(0.0) else 0.0)
      && r.value.rfqTimestamp == DateAt(parseDate, row, KeyFor(m, RfqTimestamp))
      && r.value.maturityDate == DateAt(parseDate, row, KeyFor(m, MaturityDate))
      && r.value.status == (if TextOr(row, KeyFor(m, Status)) == "" then "QUOTE" else TextOr(row, KeyFor(m, Status)))
    ensures r.Success? && IsMapped(m, Side) ==> m[Side] in row && r.value.isBuy == NormalizeSide(row[m[Side]])
  {
    var f := MappedFields(row, m, parseDate);
    Derive(f)
  }

  /** `rows.map(normalize)` inside a try: the first row that throws rejects
      the whole import, otherwise record i is row i normalized. */
  function MapRows(rows: seq<Row>, normalize: Row -> Result<NDFRecord, RowError>): (r: Result<seq<NDFRecord>, RowError>)
    ensures r.Success? <==> forall i :: 0 <= i < |rows| ==> normalize(rows[i]).Success?
    ensures r.Success? ==> |r.value| == |rows|
    ensures r.Success? ==> forall i :: 0 <= i < |rows| ==> r.value[i] == normalize(rows[i]).value
  {
    if rows == [] then Success([])
    else
      var head := normalize(rows[0]);
      if head.Failure? then Failure(head.error)
      else
        var tail := MapRows(rows[1..], normalize);
        if tail.Failure? then Failure(tail.error)
        else
          assert forall i :: 1 <= i < |rows| ==> rows[i] == rows[1..][i - 1];
          Success([head.value] + tail.value)
  }

  /** The per-row step of `parseCSV` */
  function ParseCSV(rows: seq<Row>, parseDate: DateParser): (r: Result<seq<NDFRecord>, RowError>)
    ensures r.Success? <==> forall i :: 0 <= i < |rows| ==> ParseNDFRow(rows[i], parseDate).Success?
    ensures r.Success? ==> |r.value| == |rows|
    ensures r.Success? ==> forall i :: 0 <= i < |rows| ==> r.value[i] == ParseNDFRow(rows[i], parseDate).value
    ensures r.Success? ==> forall i :: 0 <= i < |r.value| ==> WellDerived(r.value[i])
  {
    MapRows(rows, row => ParseNDFRow(row, parseDate))
  }

  /** The per-row step of `parseCSVWithMapping` */
  function ParseCSVWithMapping(rows: seq<Row>, m: Mapping, parseDate: DateParser): (r: Result<seq<NDFRecord>, RowError>)
    ensures r.Success? <==> forall i :: 0 <= i < |rows| ==> ParseNDFRowWithMapping(rows[i], m, parseDate).Success?
    ensures r.Success? ==> |r.value| == |rows|
    ensures r.Success? ==> forall i :: 0 <= i < |rows| ==> r.value[i] == ParseNDFRowWithMapping(rows[i], m, parseDate).value
    ensures r.Success? ==> forall i :: 0 <= i < |r.value| ==> WellDerived(r.value[i])
  {
    MapRows(rows, row => ParseNDFRowWithMapping(row, m, parseDate))
  }
}
