/** CSVImportWizard.tsx: auto-mapping of CSV headers onto the field table,
    and the three-step import dialog (upload, map columns, confirm). */
module ImportWizard {
  import opened Wrappers
  import opened JsText
  import opened ColumnMapping
  import opened MappingStep
  import opened CsvParser

  /** `columns.find(col => col.toLowerCase() === wanted.toLowerCase())`,
      given as the position of the column found. */
  function FindColumn(columns: seq<string>, wanted: string): (r: Option<nat>)
    ensures r.Some? ==> r.value < |columns| && EqualsIgnoringCase(columns[r.value], wanted)
    ensures r.Some? ==> forall j :: 0 <= j < r.value ==> !EqualsIgnoringCase(columns[j], wanted)
    ensures r.None? ==> forall j :: 0 <= j < |columns| ==> !EqualsIgnoringCase(columns[j], wanted)
  {
    if columns == [] then None
    else if EqualsIgnoringCase(columns[0], wanted) then Some(0)
    else match FindColumn(columns[1..], wanted)
      case None => None
      case Some(j) => Some(j + 1)
  }

  /** Field `d.key` holds the first column matching the label of `d`, and
      is absent when no column matches it. */
  predicate MapsToFirstMatch(m: Mapping, columns: seq<string>, d: FieldDefinition) {
    match FindColumn(columns, d.fieldLabel)
    case None => d.key !in m
    case Some(j) => d.key in m && m[d.key] == columns[j]
  }

  /** A header equal to a non-empty label up to case is non-empty, so the
      truthiness test on the match never drops a match. */
  lemma MatchOfNonEmptyLabel(column: string, wanted: string)
    requires EqualsIgnoringCase(column, wanted) && wanted != ""
    ensures column != ""
  {
    assert |ToLower(column)| == |ToLower(wanted)|;
  }

  lemma LabelsNonEmpty()
    ensures forall i :: 0 <= i < |FieldDefinitions| ==> FieldDefinitions[i].fieldLabel != ""
  {
  }

  /** Two fields whose labels differ up to case never receive the same
      column. */
  lemma DistinctLabelsDistinctColumns(m: Mapping, columns: seq<string>, d: FieldDefinition, e: FieldDefinition)
    requires MapsToFirstMatch(m, columns, d) && MapsToFirstMatch(m, columns, e)
    requires !EqualsIgnoringCase(d.fieldLabel, e.fieldLabel)
    requires d.key in m && e.key in m
    ensures m[d.key] != m[e.key]
  {
  }

  /** What the auto-mapping loop leaves behind, read back: a field is
      mapped exactly when some header matches its label, and no header is
      given to two fields. */
  lemma FirstMatchMapping(m: Mapping, columns: seq<string>)
    requires forall i :: 0 <= i < |FieldDefinitions| ==> MapsToFirstMatch(m, columns, FieldDefinitions[i])
    requires forall f :: f in m ==> IsDefined(f)
    ensures forall i :: 0 <= i < |FieldDefinitions| ==>
              (FieldDefinitions[i].key in m <==>
               exists j :: 0 <= j < |columns| && EqualsIgnoringCase(columns[j], FieldDefinitions[i].fieldLabel))
    ensures forall f, g :: f in m && g in m && f != g ==> m[f] != m[g]
  {
    var defs := FieldDefinitions;
    forall i | 0 <= i < |defs|
      ensures defs[i].key in m <==> exists j :: 0 <= j < |columns| && EqualsIgnoringCase(columns[j], defs[i].fieldLabel)
    {
      assert MapsToFirstMatch(m, columns, defs[i]);
    }
    KeysDistinct();
    LabelsDistinctIgnoringCase();
    forall f, g | f in m && g in m && f != g ensures m[f] != m[g] {
      var i :| 0 <= i < |defs| && defs[i].key == f;
      var j :| 0 <= j < |defs| && defs[j].key == g;
      if i < j {
        DistinctLabelsDistinctColumns(m, columns, defs[i], defs[j]);
      } else {
        DistinctLabelsDistinctColumns(m, columns, defs[j], defs[i]);
      }
    }
  }

  /** The auto-mapping loop over any table whose keys are distinct and
      whose labels are non-empty. */
  method AutoMapTable(defs: seq<FieldDefinition>, columns: seq<string>) returns (m: Mapping)
    requires forall i, j :: 0 <= i < j < |defs| ==> defs[i].key != defs[j].key
    requires forall i :: 0 <= i < |defs| ==> defs[i].fieldLabel != ""
    ensures forall i :: 0 <= i < |defs| ==> MapsToFirstMatch(m, columns, defs[i])
    ensures forall f :: f in m ==> (exists i :: 0 <= i < |defs| && defs[i].key == f) && m[f] in columns
  {
    m := map[];
    for i := 0 to |defs|
      invariant forall k :: 0 <= k < i ==> MapsToFirstMatch(m, columns, defs[k])
      invariant forall f :: f in m ==> (exists k :: 0 <= k < i && defs[k].key == f) && m[f] in columns
    {
      var field := defs[i];
      var exactMatch := FindColumn(columns, field.fieldLabel);
      if exactMatch.Some? && columns[exactMatch.value] != "" {
        m := m[field.key := columns[exactMatch.value]];
      } else if exactMatch.Some? {
        MatchOfNonEmptyLabel(columns[exactMatch.value], field.fieldLabel);
      }
    }
  }

  /** The auto-mapping of `handleFileSelect`: every field of the table
      whose label some header equals, ignoring case, is mapped to the first
      such header; no other field is mapped; no header is given to two
      fields. */
  method AutoMapColumns(columns: seq<string>) returns (m: Mapping)
    ensures forall i :: 0 <= i < |FieldDefinitions| ==> MapsToFirstMatch(m, columns, FieldDefinitions[i])
    ensures forall i :: 0 <= i < |FieldDefinitions| ==>
              (FieldDefinitions[i].key in m <==>
               exists j :: 0 <= j < |columns| && EqualsIgnoringCase(columns[j], FieldDefinitions[i].fieldLabel))
    ensures forall f :: f in m ==> IsDefined(f) && m[f] in columns
    ensures forall f, g :: f in m && g in m && f != g ==> m[f] != m[g]
  {
    LabelsNonEmpty();
    KeysDistinct();
    m := AutoMapTable(FieldDefinitions, columns);
    FirstMatchMapping(m, columns);
  }

  /** The file the user picked, with the rows the CSV reader yields for it
      (header row used for keys, empty lines skipped). */
  datatype CsvFile = CsvFile(name: string, rows: seq<Row>)

  /** `totalSteps` */
  const TotalSteps := 3

  /** The wizard's React state, one field per `useState`. */
  class Wizard {
    var step: int
    var file: Option<CsvFile>
    var csvColumns: seq<string>
    var previewData: seq<Row>
    var totalRows: nat
    var mapping: Mapping
    var loading: bool

    /** The step is one of the three, and past the first step a file has
        been chosen. */
    predicate Valid()
      reads this
    {
      1 <= step <= TotalSteps && (step > 1 ==> file.Some?)
    }

    /** The state the dialog opens in, and the one `handleClose` restores. */
    predicate IsInitial()
      reads this
    {
      step == 1 && file.None? && csvColumns == [] && previewData == []
      && totalRows == 0 && mapping == map[] && !loading
    }

    constructor ()
      ensures IsInitial() && Valid()
    {
      step := 1;
      file := None;
      csvColumns := [];
      previewData := [];
      totalRows := 0;
      mapping := map[];
      loading := false;
    }

    /** The synchronous part of `handleFileSelect`; the reader's answers
        arrive through PreviewComplete, PreviewFailed and CountComplete. */
    method HandleFileSelect(selected: CsvFile)
      requires Valid()
      modifies this
      ensures Valid()
      ensures file == Some(selected) && loading
      ensures step == old(step) && csvColumns == old(csvColumns) && previewData == old(previewData)
      ensures totalRows == old(totalRows) && mapping == old(mapping)
    {
      file := Some(selected);
      loading := true;
    }

    /** The `complete` callback of the row-count pass. */
    method CountComplete(count: nat)
      modifies this
      ensures totalRows == count
      ensures step == old(step) && file == old(file) && csvColumns == old(csvColumns)
      ensures previewData == old(previewData) && mapping == old(mapping) && loading == old(loading)
    {
      totalRows := count;
    }

    /** The `complete` callback of the preview pass: headers and the first
        rows are kept and the auto-mapping replaces the mapping. */
    method PreviewComplete(columns: seq<string>, preview: seq<Row>)
      modifies this
      ensures csvColumns == columns && previewData == preview && !loading
      ensures forall i :: 0 <= i < |FieldDefinitions| ==> MapsToFirstMatch(mapping, columns, FieldDefinitions[i])
      ensures forall f :: f in mapping ==> IsDefined(f) && mapping[f] in columns
      ensures step == old(step) && file == old(file) && totalRows == old(totalRows)
    {
      csvColumns := columns;
      previewData := preview;
      mapping := AutoMapColumns(columns);
      loading := false;
    }

    /** The `error` callback of the preview pass, and the `catch` around
        both passes. */
    method PreviewFailed()
      modifies this
      ensures !loading
      ensures step == old(step) && file == old(file) && csvColumns == old(csvColumns)
      ensures previewData == old(previewData) && totalRows == old(totalRows) && mapping == old(mapping)
    {
      loading := false;
    }

    /** `onMappingChange` from the mapping step. */
    method ChangeFieldMapping(f: Field, c: string)
      modifies this
      ensures mapping == HandleFieldMapping(old(mapping), f, c)
      ensures step == old(step) && file == old(file) && csvColumns == old(csvColumns)
      ensures previewData == old(previewData) && totalRows == old(totalRows) && loading == old(loading)
    {
      mapping := HandleFieldMapping(mapping, f, c);
    }

    /** `handleNext`: step 1 needs a file, step 2 needs every required
        field mapped, and the last step is never passed. */
    method HandleNext()
      requires Valid()
      modifies this
      ensures Valid()
      ensures old(step) == 1 && file.None? ==> step == old(step)
      ensures old(step) == 2 && !AllRequiredMapped(mapping) ==> step == old(step)
      ensures old(step) == 1 && file.Some? ==> step == 2
      ensures old(step) == 2 && AllRequiredMapped(mapping) ==> step == 3
      ensures old(step) == TotalSteps ==> step == old(step)
      ensures file == old(file) && csvColumns == old(csvColumns) && previewData == old(previewData)
      ensures totalRows == old(totalRows) && mapping == old(mapping) && loading == old(loading)
    {
      if step == 1 && file.None? {
        return;
      }
      if step == 2 {
        if !AllRequiredMapped(mapping) {
          return;
        }
      }
      if step < TotalSteps {
        step := step + 1;
      }
    }

    /** `handleBack` */
    method HandleBack()
      requires Valid()
      modifies this
      ensures Valid()
      ensures step == if old(step) > 1 then old(step) - 1 else old(step)
      ensures file == old(file) && csvColumns == old(csvColumns) && previewData == old(previewData)
      ensures totalRows == old(totalRows) && mapping == old(mapping) && loading == old(loading)
    {
      if step > 1 {
        step := step - 1;
      }
    }

    /** `handleClose`: everything back to the opening state. */
    method HandleClose()
      modifies this
      ensures IsInitial() && Valid()
    {
      step := 1;
      file := None;
      csvColumns := [];
      previewData := [];
      totalRows := 0;
      mapping := map[];
      loading := false;
    }

    /** `handleImport`: with no file nothing happens; otherwise the whole
        file goes through the mapped normalizer with the current mapping,
        unchecked. Success hands the records over and closes the dialog;
        failure keeps the dialog as it was. */
    method HandleImport(parseDate: DateParser) returns (imported: Option<seq<NDFRecord>>)
      requires Valid()
      modifies this
      ensures Valid()
      ensures old(file).None? ==> imported.None? && unchanged(this)
      ensures old(file).Some? ==> !loading
      ensures old(file).Some? ==>
                match ParseCSVWithMapping(old(file).value.rows, old(mapping), parseDate)
                case Success(records) => imported == Some(records) && IsInitial()
                case Failure(_) =>
                  && imported.None? && step == old(step) && file == old(file)
                  && csvColumns == old(csvColumns) && previewData == old(previewData)
                  && totalRows == old(totalRows) && mapping == old(mapping)
      ensures imported.Some? ==> forall i :: 0 <= i < |imported.value| ==> WellDerived(imported.value[i])
    {
      if file.None? {
        return None;
      }
      loading := true;
      var parsed := ParseCSVWithMapping(file.value.rows, mapping, parseDate);
      if parsed.Success? {
        imported := Some(parsed.value);
        HandleClose();
      } else {
        imported := None;
      }
      loading := false;
    }
  }
}
