/** columnMapping.ts: the canonical fields a CSV column can be mapped to,
    and the table of those offered for mapping, with labels and whether
    each is required. */
module ColumnMapping {
  import opened JsText

  /** The keys of the ColumnMapping interface. */
  datatype Field =
    | RfqTimestamp | MaturityDate | Status | Notional | Side
    | Counterparty | Currency | Parity | SpotCost | SpotFx | YieldCcy | YieldClient
    | YieldBrlCost | YieldBrlClient | Fwd | FwdClient
    | Cnpj | Product | RfqChannel | SideBlotter | RejectedMessage

  /** `Partial<ColumnMapping>`: the CSV header chosen for each mapped field.
      A field set to `undefined` is a field absent from the map. */
  type Mapping = map<Field, string>

  /** `mapping[f]` is truthy: the field is mapped to a non-empty header. */
  predicate IsMapped(m: Mapping, f: Field) {
    f in m && m[f] != ""
  }

  /** The interface members declared without `?`. */
  predicate IsNonOptionalMember(f: Field) {
    f.RfqTimestamp? || f.MaturityDate? || f.Status? || f.Notional? || f.Side?
  }

  /** One entry of FIELD_DEFINITIONS */
  datatype FieldDefinition = FieldDefinition(key: Field, fieldLabel: string, description: string, required: bool)

  /** FIELD_DEFINITIONS, in source order. */
  const FieldDefinitions: seq<FieldDefinition> := [
    FieldDefinition(RfqTimestamp, "RFQ Timestamp", "Data e hora da cotação (YYYY-MM-DD HH:MM:SS)", true),
    FieldDefinition(MaturityDate, "Maturity Date", "Data de vencimento (YYYY-MM-DD)", true),
    FieldDefinition(Status, "Status", "Status da operação (DEAL, NOTH.DONE, REJECTED, etc.)", true),
    FieldDefinition(Notional, "Notional", "Valor nocional da operação", true),
    FieldDefinition(Side, "Side", "Lado da operação (Compra/Venda ou BUY/SELL)", true),
    FieldDefinition(Counterparty, "Counterparty", "Nome da contraparte", false),
    FieldDefinition(Currency, "Currency", "Moeda da operação (USD, EUR, etc.)", false),
    FieldDefinition(Parity, "Parity", "Paridade (ex: USD/BRL)", false),
    FieldDefinition(Fwd, "FWD", "Taxa forward (custo)", false),
    FieldDefinition(FwdClient, "FWD-Client", "Taxa forward (cliente)", false),
    FieldDefinition(YieldCcy, "Yield (CCY)", "Yield em moeda estrangeira", false),
    FieldDefinition(YieldClient, "Yield (Client)", "Yield do cliente", false),
    FieldDefinition(SpotFx, "Spot FX", "Taxa de câmbio spot", false),
    FieldDefinition(RejectedMessage, "Rejected Message", "Motivo da rejeição", false)
  ]

  /** True when some entry of the table has key `f`. */
  predicate IsDefined(f: Field) {
    exists i :: 0 <= i < |FieldDefinitions| && FieldDefinitions[i].key == f
  }

  /** The number of entries marked required. */
  function RequiredCount(defs: seq<FieldDefinition>): (n: nat)
    ensures n <= |defs|
  {
    if defs == [] then 0 else (if defs[0].required then 1 else 0) + RequiredCount(defs[1..])
  }

  /** Exactly five entries are required, and they are the five members the
      interface declares non-optional. */
  lemma RequiredAreTheNonOptionalMembers()
    ensures RequiredCount(FieldDefinitions) == 5
    ensures forall i :: 0 <= i < |FieldDefinitions| ==>
              (FieldDefinitions[i].required <==> IsNonOptionalMember(FieldDefinitions[i].key))
    ensures forall f :: IsNonOptionalMember(f) ==> IsDefined(f)
  {
    RequiredCountIsFive();
    RequiredFlagsMatchInterface();
    NonOptionalMembersDefined();
  }

  lemma RequiredCountIsFive()
    ensures RequiredCount(FieldDefinitions) == 5
  {
    RequiredAreTheFirstFive();
    RequiredCountOfPrefix(FieldDefinitions, 5);
  }

  /** The required entries are the first five of the table. */
  lemma RequiredAreTheFirstFive()
    ensures forall i :: 0 <= i < |FieldDefinitions| ==> (FieldDefinitions[i].required <==> i < 5)
  {
  }

  lemma RequiredFlagsMatchInterface()
    ensures forall i :: 0 <= i < |FieldDefinitions| ==>
              (FieldDefinitions[i].required <==> IsNonOptionalMember(FieldDefinitions[i].key))
  {
  }

  lemma NonOptionalMembersDefined()
    ensures forall f :: IsNonOptionalMember(f) ==> IsDefined(f)
  {
    var d := FieldDefinitions;
    forall f | IsNonOptionalMember(f) ensures IsDefined(f) {
      if f.RfqTimestamp? { assert d[0].key == f; }
      else if f.MaturityDate? { assert d[1].key == f; }
      else if f.Status? { assert d[2].key == f; }
      else if f.Notional? { assert d[3].key == f; }
      else { assert d[4].key == f; }
    }
  }

  /** A table whose first `p` entries, and only those, are required has
      `p` required entries. */
  lemma {:induction false} RequiredCountOfPrefix(d: seq<FieldDefinition>, p: nat)
    requires p <= |d|
    requires forall i :: 0 <= i < |d| ==> (d[i].required <==> i < p)
    ensures RequiredCount(d) == p
  {
    if d != [] {
      var rest, q := d[1..], if p == 0 then 0 else p - 1;
      forall i | 0 <= i < |rest| ensures (rest[i].required <==> i < q) {
        assert rest[i] == d[i + 1];
      }
      RequiredCountOfPrefix(rest, q);
    }
  }

  /** No key appears twice in the table. */
  lemma KeysDistinct()
    ensures forall i, j :: 0 <= i < j < |FieldDefinitions| ==>
              FieldDefinitions[i].key != FieldDefinitions[j].key
  {
  }

  /** No two labels are equal up to letter case, so a CSV header can match
      the label of at most one field. */
  lemma LabelsDistinctIgnoringCase()
    ensures forall i, j :: 0 <= i < j < |FieldDefinitions| ==>
              !EqualsIgnoringCase(FieldDefinitions[i].fieldLabel, FieldDefinitions[j].fieldLabel)
  {
    forall i, j | 0 <= i < j < |FieldDefinitions|
      ensures !EqualsIgnoringCase(FieldDefinitions[i].fieldLabel, FieldDefinitions[j].fieldLabel)
    {
      var a, b := FieldDefinitions[i].fieldLabel, FieldDefinitions[j].fieldLabel;
      if |a| == |b| {
        assert LowerChar(a[0]) != LowerChar(b[0]);
        assert ToLower(a)[0] != ToLower(b)[0];
      }
    }
  }

  /** Seven mapping keys have no table entry, so they are never proposed
      by auto-mapping nor offered in the mapping step. */
  lemma SevenKeysHaveNoDefinition(f: Field)
    ensures !IsDefined(f) <==>
              f in {SpotCost, YieldBrlCost, YieldBrlClient, Cnpj, Product, RfqChannel, SideBlotter}
  {
    if f in {SpotCost, YieldBrlCost, YieldBrlClient, Cnpj, Product, RfqChannel, SideBlotter} {
      TableLacksSevenKeys();
    } else {
      OtherKeysDefined(f);
    }
  }

  lemma TableLacksSevenKeys()
    ensures forall i :: 0 <= i < |FieldDefinitions| ==>
              FieldDefinitions[i].key !in {SpotCost, YieldBrlCost, YieldBrlClient, Cnpj, Product, RfqChannel, SideBlotter}
  {
  }

  lemma OtherKeysDefined(f: Field)
    requires f !in {SpotCost, YieldBrlCost, YieldBrlClient, Cnpj, Product, RfqChannel, SideBlotter}
    ensures IsDefined(f)
  {
    var d := FieldDefinitions;
    match f
    case RfqTimestamp => assert d[0].key == f;
    case MaturityDate => assert d[1].key == f;
    case Status => assert d[2].key == f;
    case Notional => assert d[3].key == f;
    case Side => assert d[4].key == f;
    case Counterparty => assert d[5].key == f;
    case Currency => assert d[6].key == f;
    case Parity => assert d[7].key == f;
    case Fwd => assert d[8].key == f;
    case FwdClient => assert d[9].key == f;
    case YieldCcy => assert d[10].key == f;
    case YieldClient => assert d[11].key == f;
    case SpotFx => assert d[12].key == f;
    case RejectedMessage => assert d[13].key == f;
  }
}
