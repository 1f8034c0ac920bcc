/** ColumnMappingStep.tsx: the single-field update the mapping step makes,
    the split of the field table into required and optional fields, and
    the "all required mapped" test that also gates the wizard's step 2. */
module MappingStep {
  import opened ColumnMapping

  /** The select value that stands for "no column". */
  const NoColumn := "none"

  /** `handleFieldMapping`: `{...mapping, [f]: c === "none" ? undefined : c}` */
  function HandleFieldMapping(m: Mapping, f: Field, c: string): (r: Mapping)
    ensures c == NoColumn ==> f !in r
    ensures c != NoColumn ==> f in r && r[f] == c
    ensures forall g :: g != f ==> (g in r <==> g in m)
    ensures forall g :: g != f && g in m ==> r[g] == m[g]
  {
    if c == NoColumn then m - {f} else m[f := c]
  }

  /** `defs.filter(f => f.required === wanted)` */
  function WithRequired(defs: seq<FieldDefinition>, wanted: bool): (r: seq<FieldDefinition>)
    ensures |r| <= |defs|
    ensures forall d :: d in r ==> d in defs && d.required == wanted
    ensures forall d :: d in defs && d.required == wanted ==> d in r
  {
    if defs == [] then []
    else if defs[0].required == wanted then [defs[0]] + WithRequired(defs[1..], wanted)
    else WithRequired(defs[1..], wanted)
  }

  /** The positions from `from` on of the entries whose flag is `wanted`,
      in strictly increasing order. */
  function Positions(defs: seq<FieldDefinition>, wanted: bool, from: nat): (pos: seq<nat>)
    requires from <= |defs|
    ensures forall k :: 0 <= k < |pos| ==> from <= pos[k] < |defs| && defs[pos[k]].required == wanted
    ensures forall k :: 0 < k < |pos| ==> pos[k - 1] < pos[k]
    decreases |defs| - from
  {
    if from == |defs| then []
    else if defs[from].required == wanted then [from] + Positions(defs, wanted, from + 1)
    else Positions(defs, wanted, from + 1)
  }

  /** The filter keeps the table's order: its k-th entry is the table
      entry at the k-th of those positions. */
  lemma {:induction false} WithRequiredKeepsOrder(defs: seq<FieldDefinition>, wanted: bool, from: nat)
    requires from <= |defs|
    ensures |Positions(defs, wanted, from)| == |WithRequired(defs[from..], wanted)|
    ensures forall k :: 0 <= k < |Positions(defs, wanted, from)| ==>
              defs[Positions(defs, wanted, from)[k]] == WithRequired(defs[from..], wanted)[k]
    decreases |defs| - from
  {
    if from < |defs| {
      WithRequiredKeepsOrder(defs, wanted, from + 1);
      FilterStep(defs, wanted, from);
      if defs[from].required == wanted {
        MatchedCons(defs, from, Positions(defs, wanted, from + 1), WithRequired(defs[from + 1..], wanted));
      }
    }
  }

  /** Positions that pick out a list keep picking it out with one more
      position in front. */
  lemma MatchedCons(defs: seq<FieldDefinition>, from: nat, pos: seq<nat>, r: seq<FieldDefinition>)
    requires from < |defs|
    requires |pos| == |r|
    requires forall k :: 0 <= k < |pos| ==> pos[k] < |defs| && defs[pos[k]] == r[k]
    ensures forall k :: 0 <= k < |[from] + pos| ==> defs[([from] + pos)[k]] == ([defs[from]] + r)[k]
  {
    forall k | 0 < k <= |pos| ensures defs[([from] + pos)[k]] == ([defs[from]] + r)[k] {
      assert ([from] + pos)[k] == pos[k - 1];
    }
  }

  /** One step of both the filter and the positions. */
  lemma FilterStep(defs: seq<FieldDefinition>, wanted: bool, from: nat)
    requires from < |defs|
    ensures defs[from].required == wanted ==>
              && WithRequired(defs[from..], wanted) == [defs[from]] + WithRequired(defs[from + 1..], wanted)
              && Positions(defs, wanted, from) == [from] + Positions(defs, wanted, from + 1)
    ensures defs[from].required != wanted ==>
              && WithRequired(defs[from..], wanted) == WithRequired(defs[from + 1..], wanted)
              && Positions(defs, wanted, from) == Positions(defs, wanted, from + 1)
  {
    assert defs[from..][0] == defs[from];
    assert defs[from..][1..] == defs[from + 1..];
  }

  /** `requiredFields` */
  function RequiredFields(): seq<FieldDefinition> {
    WithRequired(FieldDefinitions, true)
  }

  /** `optionalFields` */
  function OptionalFields(): seq<FieldDefinition> {
    WithRequired(FieldDefinitions, false)
  }

  /** The two filters split any table: every entry lands in exactly one of
      them, as often as it occurs, and the required side has as many
      entries as are marked required. */
  lemma {:induction false} WithRequiredPartition(defs: seq<FieldDefinition>)
    ensures multiset(WithRequired(defs, true)) + multiset(WithRequired(defs, false)) == multiset(defs)
    ensures |WithRequired(defs, true)| == RequiredCount(defs)
    ensures |WithRequired(defs, true)| + |WithRequired(defs, false)| == |defs|
  {
    if defs != [] {
      WithRequiredPartition(defs[1..]);
      assert defs == [defs[0]] + defs[1..];
    }
  }

  /** The mapping step shows five required and nine optional fields, and
      together they are the whole table. */
  lemma RequiredAndOptionalPartition()
    ensures multiset(RequiredFields()) + multiset(OptionalFields()) == multiset(FieldDefinitions)
    ensures |RequiredFields()| == 5
    ensures |OptionalFields()| == 9
  {
    TableSplits();
    FiveRequired();
    NineOptional();
  }

  lemma TableSplits()
    ensures multiset(RequiredFields()) + multiset(OptionalFields()) == multiset(FieldDefinitions)
  {
    WithRequiredPartition(FieldDefinitions);
  }

  lemma FiveRequired()
    ensures |RequiredFields()| == 5
  {
    WithRequiredPartition(FieldDefinitions);
    RequiredCountIsFive();
  }

  lemma NineOptional()
    ensures |OptionalFields()| == 9
  {
    FiveRequired();
    WithRequiredPartition(FieldDefinitions);
  }

  /** `allRequiredMapped`: `requiredFields.every(f => mapping[f.key])` */
  predicate AllRequiredMapped(m: Mapping) {
    forall i :: 0 <= i < |FieldDefinitions| && FieldDefinitions[i].required ==>
      IsMapped(m, FieldDefinitions[i].key)
  }

  /** The test holds exactly when the five non-optional members of the
      ColumnMapping interface are each mapped to a non-empty header. */
  lemma AllRequiredMappedMeaning(m: Mapping)
    ensures AllRequiredMapped(m) <==> forall f :: IsNonOptionalMember(f) ==> IsMapped(m, f)
  {
    RequiredFlagsMatchInterface();
    if AllRequiredMapped(m) {
      NonOptionalMembersDefined();
    }
  }

  /** Choosing "none" for a required field blocks the gate; changing an
      optional field, or choosing a real column, never closes an open
      gate. */
  lemma HandleFieldMappingGate(m: Mapping, f: Field, c: string)
    ensures IsNonOptionalMember(f) && c == NoColumn ==> !AllRequiredMapped(HandleFieldMapping(m, f, c))
    ensures AllRequiredMapped(m) && (!IsNonOptionalMember(f) || (c != NoColumn && c != "")) ==>
              AllRequiredMapped(HandleFieldMapping(m, f, c))
  {
    AllRequiredMappedMeaning(m);
    AllRequiredMappedMeaning(HandleFieldMapping(m, f, c));
  }
}
