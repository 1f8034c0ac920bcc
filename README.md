# NDF Insight Brasil: CSV import and Overview aggregations

This project is a Dafny model of the data pipeline in NDF Insight Brasil, a dashboard for non-deliverable forward (NDF) quotes and deals. The model covers:

- **Row normalizers** (`utils/csvParser.ts`). Brazilian-formatted numbers (`1.234.567,89`) are read through a model of JavaScript's `parseFloat`. One CSV row becomes one `NDFRecord`, either through the fixed export headers (`parseNDFRow`) or through a user-chosen `ColumnMapping` (`parseNDFRowWithMapping`). The derived fields are computed from the row: tenor in days and its bucket, notional bucket, markup in basis points, P&L in BRL, the buy flag and the actionable flag. Both normalizers then serve a whole-file import (`parseCSV`, `parseCSVWithMapping`).
- **The field table** (`types/columnMapping.ts`). These are the `ColumnMapping` keys and `FIELD_DEFINITIONS`, each entry with its label and its required flag.
- **The mapping step** (`components/wizard/ColumnMappingStep.tsx`). It updates one field at a time, splits the table into required and optional fields, and tests that every required field is mapped.
- **The import wizard** (`components/wizard/CSVImportWizard.tsx`). It is a class `Wizard` whose fields are the component's React state. Each handler is a method with a `modifies` clause. The auto-mapping of CSV headers onto field labels is a loop.
- **The Overview page** (`pages/Overview.tsx`). It computes:
  - the headline KPIs (pure functions);
  - the P&L per currency with its subtotal bar, and the histogram of notional per client (methods with loops);
  - the status split and the rejection reasons. Their accumulator objects are modelled in `grouping.dfy` as a fold whose keys keep their insertion order, matching JavaScript's `Object.entries`.

Modules:

| file | module | models |
|---|---|---|
| wrappers.dfy | Wrappers | `Option` (JavaScript `null`/`undefined`) and `Result` (a thrown error) |
| js_text.dfy | JsText | the JavaScript string operations the source relies on: `trim`, `toUpperCase`, `toLowerCase`, `replace`, `includes` |
| brazilian_number.dfy | BrazilianNumber | `parseBrazilianNumber` and `parseFloat` |
| derived_fields.dfy | DerivedFields | tenor, the two bucket ladders, markup, P&L, `normalizeSide` |
| column_mapping.dfy | ColumnMapping | `ColumnMapping`, `FIELD_DEFINITIONS` |
| csv_parser.dfy | CsvParser | `NDFRecord`, both row normalizers, whole-file ingestion |
| mapping_step.dfy | MappingStep | `ColumnMappingStep` |
| import_wizard.dfy | ImportWizard | auto-mapping and the `CSVImportWizard` state machine |
| grouping.dfy | Grouping | the `acc[k] = (acc[k] \|\| 0) + x` accumulator |
| overview.dfy | Overview | the five `useMemo` computations of the Overview page |

Where the code disagrees with the project's written description, the model follows the code. The description says the normalizers never throw, but the code does throw in three cases:

- `normalizeSide` receives `undefined`;
- `calculatePLBrl` reaches `parity.toUpperCase()` with an `undefined` parity;
- the mapped side column is missing from the row.

Each normalizer therefore returns a `Result`. The `try`/`catch` around `results.data.map(...)` makes the import all-or-nothing: one throwing row rejects the whole file. `MapRows` states exactly that.

## Model

Paths are relative to the repository root, under `cross-app-test/ndf-insight-brasil-main/src/`.

| member | source | states |
|---|---|---|
| BrazilianNumber.ParseFloat | cross-app-test/ndf-insight-brasil-main/src/utils/csvParser.ts:16 | `parseFloat` yields a number (not NaN) exactly when, after leading white space and an optional sign, the text starts with a digit, or with a point followed by a digit |
| BrazilianNumber.ParseBrazilianNumber | cross-app-test/ndf-insight-brasil-main/src/utils/csvParser.ts:8-18 | a number is returned unchanged; `undefined`, the empty string, "-" and blank text give null; any other text gives a number only if its cleaned form starts as a numeral |
| BrazilianNumber.CleanKeepsOnePoint | cross-app-test/ndf-insight-brasil-main/src/utils/csvParser.ts:12-14 | after cleaning there is at most one decimal point, and there is one exactly when the input had a comma |
| BrazilianNumber.ParseBrazilianGrouped | cross-app-test/ndf-insight-brasil-main/src/utils/csvParser.ts:5-18 | any run of digits and dots holding at least one digit, such as the dot-grouped thousands "1.234.567", optionally followed by a comma and decimal digits, parses to the value of its digits with the dots dropped and the comma read as the decimal point |
| BrazilianNumber.ParseOfNumeral | cross-app-test/ndf-insight-brasil-main/src/utils/csvParser.ts:10-16 | text that is not empty, not "-" and not blank goes to `parseFloat` after cleaning |
| BrazilianNumber.ParseFloatOfNumeral | cross-app-test/ndf-insight-brasil-main/src/utils/csvParser.ts:16 | `parseFloat` reads a plain decimal numeral (digits, optionally a point and more digits) exactly |
| BrazilianNumber.ParseFloatOfDecimal | cross-app-test/ndf-insight-brasil-main/src/utils/csvParser.ts:16 | `parseFloat` stops at the first character after the fraction that cannot continue the number, such as a second comma |
| BrazilianNumber.ExampleGroupedMillions | cross-app-test/ndf-insight-brasil-main/src/utils/csvParser.ts:6-17 | "1.234.567,89" parses to 1234567.89 |
| BrazilianNumber.ExampleSecondCommaIgnored | cross-app-test/ndf-insight-brasil-main/src/utils/csvParser.ts:12-16 | only the first comma becomes a point, so "1,5,3" parses to 1.5 |
| JsText.TrimEmptyIff | cross-app-test/ndf-insight-brasil-main/src/utils/csvParser.ts:10 | `value.trim() === ''` holds exactly when every character is JavaScript white space |
| JsText.TrimSplits | cross-app-test/ndf-insight-brasil-main/src/utils/csvParser.ts:102 | `trim` removes a white-space prefix and a white-space suffix, and what remains neither starts nor ends with white space |
| JsText.TrimOfPadded | cross-app-test/ndf-insight-brasil-main/src/utils/csvParser.ts:102 | padding a word that has no white space at its ends with white space on both sides does not change what `trim` returns |
| JsText.ReplaceFirstComma | cross-app-test/ndf-insight-brasil-main/src/utils/csvParser.ts:14 | `replace(',', '.')` changes only the first comma and keeps the length |
| JsText.RemoveDots | cross-app-test/ndf-insight-brasil-main/src/utils/csvParser.ts:13 | `replace(/\./g, '')` leaves no dot and keeps every other character that was present |
| DerivedFields.TenorDays | cross-app-test/ndf-insight-brasil-main/src/utils/csvParser.ts:163-170 | the result is null exactly for an invalid date or for a maturity a day or more before the quote; otherwise it is the whole number of days, rounded up, and never negative |
| DerivedFields.CeilDiv | cross-app-test/ndf-insight-brasil-main/src/utils/csvParser.ts:168 | `Math.ceil(a / d)` is the least c with a <= c * d |
| DerivedFields.TenorBucket | cross-app-test/ndf-insight-brasil-main/src/utils/csvParser.ts:23-32 | the label is "N/A" exactly for a null tenor; otherwise it is the ladder label on the rung given by the count of thresholds reached |
| DerivedFields.TenorBucketMonotone | cross-app-test/ndf-insight-brasil-main/src/utils/csvParser.ts:23-32 | a longer tenor never lands on a lower rung |
| DerivedFields.TenorGap | cross-app-test/ndf-insight-brasil-main/src/utils/csvParser.ts:28-29 | a tenor is labelled "150-179D" exactly when it is 120 to 179 days; there is no 120-149 rung |
| DerivedFields.NotionalBucket | cross-app-test/ndf-insight-brasil-main/src/utils/csvParser.ts:37-42 | the label is one of the four, and it is the one on the rung given by the thresholds reached |
| DerivedFields.NotionalBucketMonotone | cross-app-test/ndf-insight-brasil-main/src/utils/csvParser.ts:37-42 | a larger notional never lands in a lower bucket |
| DerivedFields.MarkupBps | cross-app-test/ndf-insight-brasil-main/src/utils/csvParser.ts:47-64 | when both forwards are known and the cost forward is non-zero, the markup is the relative forward spread in bp, read back as `fwd * (1 + r/10000) == fwdClient`; otherwise it is non-null exactly when both yields are known, as `yieldCcy + r/10000 == yieldClient`; otherwise null |
| DerivedFields.MarkupIgnoresYieldsWhenForwardsUsable | cross-app-test/ndf-insight-brasil-main/src/utils/csvParser.ts:53-61 | the fallback never blends in: with usable forwards the yields do not affect the markup |
| DerivedFields.MarkupExamples | cross-app-test/ndf-insight-brasil-main/src/utils/csvParser.ts:54-61 | 100 against 101 gives 100 bp; with a zero forward, the yields 0.04 and 0.05 give 100 bp |
| DerivedFields.PlBrl | cross-app-test/ndf-insight-brasil-main/src/utils/csvParser.ts:69-96 | the P&L is null exactly when a forward is missing; it is converted by spot FX only for a non-BRL pair with a non-zero spot, and otherwise equals the quote-currency P&L |
| DerivedFields.PlBuyNegatesSell | cross-app-test/ndf-insight-brasil-main/src/utils/csvParser.ts:84-88 | a buy and a sell on the same rates have opposite P&L, and the two are null together |
| DerivedFields.PlExamples | cross-app-test/ndf-insight-brasil-main/src/utils/csvParser.ts:77-95 | a USD/BRL buy at 5.10 against 5.00 on 1000 gains 100 and is not converted; the sell loses 100 |
| DerivedFields.NormalizeSideMeaning | cross-app-test/ndf-insight-brasil-main/src/utils/csvParser.ts:101-104 | a side reads as a buy exactly when, apart from surrounding white space, it is "COMPRA" or "BUY" in any letter case |
| CsvParser.Derive | cross-app-test/ndf-insight-brasil-main/src/utils/csvParser.ts:122-157 | building the record throws exactly in the two `undefined` cases (a missing side, or both forwards known with no parity); otherwise every field read from the row is copied unchanged (`CopiesFields`), `isBuy` is the normalized side, every derived field agrees with its inputs (`WellDerived`), and the tenor is never negative |
| CsvParser.ParseNDFRow | cross-app-test/ndf-insight-brasil-main/src/utils/csvParser.ts:109-158 | a row fails exactly when neither Side nor Side (Blotter) yields a side, or when both forwards parse and there is no Parity cell; a successful record is `WellDerived`, and each field comes from its fixed header: the texts are the cell or "" (`\|\| ''`), the numbers are the Brazilian-number reading of the cell, the notional defaults to 0, and the two dates are `new Date` of their cells |
| CsvParser.MappedText | cross-app-test/ndf-insight-brasil-main/src/utils/csvParser.ts:199-202 | a mapped text field is the cell under the mapped header, or "" when the row has none; an unmapped one is "" |
| CsvParser.MappedNumber | cross-app-test/ndf-insight-brasil-main/src/utils/csvParser.ts:181-186 | a mapped numeric field is the Brazilian-number reading of the cell under the mapped header; an unmapped one is null |
| CsvParser.MappedStatus | cross-app-test/ndf-insight-brasil-main/src/utils/csvParser.ts:189 | the status is the mapped cell when that is non-empty, and "QUOTE" when the cell is empty, missing or unmapped; it is never empty |
| CsvParser.MappedIsBuy | cross-app-test/ndf-insight-brasil-main/src/utils/csvParser.ts:185 | with the side mapped, the side is known exactly when the row has the mapped cell, and is then the normalized cell; with no side mapped, the record is a buy |
| CsvParser.MappedFields | cross-app-test/ndf-insight-brasil-main/src/utils/csvParser.ts:175-193 | resolving the columns through the mapping leads to a throw exactly when the mapped side cell is missing, or when both forwards parse and the mapped parity cell is missing; each field is read from the header its key is mapped to (texts default to "", numbers to null, the notional to 0, the status to "QUOTE"), and an unmapped field takes that default |
| CsvParser.ParseNDFRowWithMapping | cross-app-test/ndf-insight-brasil-main/src/utils/csvParser.ts:175-225 | the same failure condition as MappedFields; a successful record is `WellDerived`, each of its fields is the cell under the header the mapping gives for it, with the same defaults, and `isBuy` is the normalized mapped side cell, or true when no side is mapped |
| CsvParser.MapRows | cross-app-test/ndf-insight-brasil-main/src/utils/csvParser.ts:236-241 | the import succeeds exactly when every row normalizes; it then has one record per row, in row order |
| CsvParser.ParseCSV | cross-app-test/ndf-insight-brasil-main/src/utils/csvParser.ts:253-271 | all-or-nothing ingestion with the fixed headers; every record is `WellDerived` |
| CsvParser.ParseCSVWithMapping | cross-app-test/ndf-insight-brasil-main/src/utils/csvParser.ts:230-248 | all-or-nothing ingestion through a mapping; every record is `WellDerived` |
| ColumnMapping.RequiredAreTheNonOptionalMembers | cross-app-test/ndf-insight-brasil-main/src/types/columnMapping.ts:1-122 | the table marks exactly five entries required; these are the interface members declared without `?`, and each of those members has an entry |
| ColumnMapping.RequiredCountIsFive | cross-app-test/ndf-insight-brasil-main/src/types/columnMapping.ts:37-122 | five entries are required |
| ColumnMapping.RequiredFlagsMatchInterface | cross-app-test/ndf-insight-brasil-main/src/types/columnMapping.ts:1-122 | an entry is required exactly when its key is a non-optional interface member |
| ColumnMapping.NonOptionalMembersDefined | cross-app-test/ndf-insight-brasil-main/src/types/columnMapping.ts:2-7 | every non-optional member has a table entry |
| ColumnMapping.KeysDistinct | cross-app-test/ndf-insight-brasil-main/src/types/columnMapping.ts:37-122 | no key appears twice in the table |
| ColumnMapping.LabelsDistinctIgnoringCase | cross-app-test/ndf-insight-brasil-main/src/types/columnMapping.ts:37-122 | no two labels are equal up to letter case |
| ColumnMapping.SevenKeysHaveNoDefinition | cross-app-test/ndf-insight-brasil-main/src/types/columnMapping.ts:9-122 | the keys without a table entry are exactly spotCost, yieldBrlCost, yieldBrlClient, cnpj, product, rfqChannel and sideBlotter |
| MappingStep.HandleFieldMapping | cross-app-test/ndf-insight-brasil-main/src/components/wizard/ColumnMappingStep.tsx:21-26 | choosing "none" unmaps the field; any other choice maps it to that header; every other field keeps its mapping |
| MappingStep.WithRequired | cross-app-test/ndf-insight-brasil-main/src/components/wizard/ColumnMappingStep.tsx:28-29 | the filter keeps exactly the entries whose flag is the one wanted, never more entries than the table has |
| MappingStep.WithRequiredKeepsOrder | cross-app-test/ndf-insight-brasil-main/src/components/wizard/ColumnMappingStep.tsx:28-29 | the filter keeps the table order: its k-th entry is the table entry at the k-th of the strictly increasing positions (`Positions`) whose flag is the one wanted |
| MappingStep.WithRequiredPartition | cross-app-test/ndf-insight-brasil-main/src/components/wizard/ColumnMappingStep.tsx:28-29 | the required and optional filters split any table; together they hold each entry as often as it occurs |
| MappingStep.RequiredAndOptionalPartition | cross-app-test/ndf-insight-brasil-main/src/components/wizard/ColumnMappingStep.tsx:28-29 | the step shows five required and nine optional fields, and together they are the whole table |
| MappingStep.AllRequiredMappedMeaning | cross-app-test/ndf-insight-brasil-main/src/components/wizard/ColumnMappingStep.tsx:30 | the test holds exactly when each of the five non-optional members is mapped to a non-empty header |
| MappingStep.HandleFieldMappingGate | cross-app-test/ndf-insight-brasil-main/src/components/wizard/ColumnMappingStep.tsx:21-30 | choosing "none" for a required field fails the test; changing an optional field, or choosing a non-empty header, keeps a passing test passing |
| ImportWizard.FindColumn | cross-app-test/ndf-insight-brasil-main/src/components/wizard/CSVImportWizard.tsx:59-61 | `columns.find` returns the first header equal to the label up to case, and none exactly when no header is |
| ImportWizard.MatchOfNonEmptyLabel | cross-app-test/ndf-insight-brasil-main/src/components/wizard/CSVImportWizard.tsx:62 | a header that matches a non-empty label is non-empty, so the truthiness test never drops a match |
| ImportWizard.AutoMapTable | cross-app-test/ndf-insight-brasil-main/src/components/wizard/CSVImportWizard.tsx:57-65 | for any table with distinct keys and non-empty labels, the loop maps each field to its first matching header and maps nothing else |
| ImportWizard.FirstMatchMapping | cross-app-test/ndf-insight-brasil-main/src/components/wizard/CSVImportWizard.tsx:56-65 | a field is auto-mapped exactly when some header matches its label, and no header is given to two fields |
| ImportWizard.AutoMapColumns | cross-app-test/ndf-insight-brasil-main/src/components/wizard/CSVImportWizard.tsx:56-66 | the auto-mapping maps each field of the table to its first matching header, and only if one exists; it maps only table keys, to headers of the file, and never one header to two fields |
| ImportWizard.Wizard.constructor | cross-app-test/ndf-insight-brasil-main/src/components/wizard/CSVImportWizard.tsx:22-28 | the dialog opens at step 1 with no file, no columns, no preview, zero rows, an empty mapping and not loading |
| ImportWizard.Wizard.HandleFileSelect | cross-app-test/ndf-insight-brasil-main/src/components/wizard/CSVImportWizard.tsx:33-35 | it stores the file and starts loading; nothing else changes |
| ImportWizard.Wizard.CountComplete | cross-app-test/ndf-insight-brasil-main/src/components/wizard/CSVImportWizard.tsx:41-43 | it records the row count; nothing else changes |
| ImportWizard.Wizard.PreviewComplete | cross-app-test/ndf-insight-brasil-main/src/components/wizard/CSVImportWizard.tsx:51-68 | it keeps the headers and preview rows, replaces the mapping with the auto-mapping and stops loading |
| ImportWizard.Wizard.PreviewFailed | cross-app-test/ndf-insight-brasil-main/src/components/wizard/CSVImportWizard.tsx:69-78 | it stops loading and keeps everything else |
| ImportWizard.Wizard.ChangeFieldMapping | cross-app-test/ndf-insight-brasil-main/src/components/wizard/CSVImportWizard.tsx:148-154 | the mapping becomes the one `handleFieldMapping` builds; nothing else changes |
| ImportWizard.Wizard.HandleNext | cross-app-test/ndf-insight-brasil-main/src/components/wizard/CSVImportWizard.tsx:81-99 | step 1 advances only with a file, step 2 only when every required field is mapped, and the last step never advances; only the step changes, and the step stays within 1..3 |
| ImportWizard.Wizard.HandleBack | cross-app-test/ndf-insight-brasil-main/src/components/wizard/CSVImportWizard.tsx:101-105 | it goes back one step unless at step 1; nothing else changes |
| ImportWizard.Wizard.HandleClose | cross-app-test/ndf-insight-brasil-main/src/components/wizard/CSVImportWizard.tsx:124-133 | it restores the opening state |
| ImportWizard.Wizard.HandleImport | cross-app-test/ndf-insight-brasil-main/src/components/wizard/CSVImportWizard.tsx:107-122 | with no file nothing changes; otherwise the whole file is normalized with the current mapping, which is not checked again; on success the records are handed over and the dialog resets; on failure nothing is handed over and only loading changes; every handed-over record is `WellDerived` |
| Grouping.Keys | cross-app-test/ndf-insight-brasil-main/src/pages/Overview.tsx:63-72 | the accumulator's keys are distinct and are exactly the keys some entry is filed under |
| Grouping.KeysInFirstWrittenOrder | cross-app-test/ndf-insight-brasil-main/src/pages/Overview.tsx:63-72 | the keys come in the order in which they were first written: every entry filed under a later key comes after some entry filed under an earlier key |
| Grouping.SumForAbsent | cross-app-test/ndf-insight-brasil-main/src/pages/Overview.tsx:66-69 | a key no entry is filed under holds nothing, so starting a new key at 0 is sound |
| Grouping.SumForCons | cross-app-test/ndf-insight-brasil-main/src/pages/Overview.tsx:66-69 | folding one entry first adds its amount to its own key and nothing to any other key |
| Grouping.GroupsAddUp | cross-app-test/ndf-insight-brasil-main/src/pages/Overview.tsx:63-78 | the groups' sums add up to the total of all entries |
| Grouping.GroupSum | cross-app-test/ndf-insight-brasil-main/src/pages/Overview.tsx:63-70 | the fold loop yields the keys `Keys` lists, in the order in which they were first written (`KeysInFirstWrittenOrder`), and under each key the sum of its entries |
| Overview.WithStatus | cross-app-test/ndf-insight-brasil-main/src/pages/Overview.tsx:23 | the filter keeps exactly the records with that status, each as often as it occurs in the data, and their number is the count of such records |
| Overview.ComputeKpis | cross-app-test/ndf-insight-brasil-main/src/pages/Overview.tsx:12-56 | no data gives all-zero KPIs; the volume is the total deal notional and the result the sum of the deals' `plBrl \|\| 0`; with a positive total deal notional, the markup and tenor averages times that total give the notional-weighted sums (nulls skipped), and otherwise they are zero; the conversion rate times the actionable count gives the deal count, and it is zero when no record is actionable |
| Overview.ConversionRate | cross-app-test/ndf-insight-brasil-main/src/pages/Overview.tsx:44-47 | the rate is the deal count divided by the actionable count, and 0 when nothing is actionable |
| Overview.UniformMarkupAverage | cross-app-test/ndf-insight-brasil-main/src/pages/Overview.tsx:29-35 | when every deal carries the same markup c and the total deal notional is positive, the KPI markup average is exactly c |
| Overview.ConversionRateBounded | cross-app-test/ndf-insight-brasil-main/src/pages/Overview.tsx:44-47 | for records built by the normalizers, the conversion rate lies in [0, 1] |
| Overview.DealsAtMostActionable | cross-app-test/ndf-insight-brasil-main/src/pages/Overview.tsx:23-24 | when every DEAL is actionable, there are no more deals than actionable records |
| Overview.NullsWeighAsZero | cross-app-test/ndf-insight-brasil-main/src/pages/Overview.tsx:29-42 | skipping a null value in the weighted sum is the same as weighting it as zero |
| Overview.WeightedSumMono | cross-app-test/ndf-insight-brasil-main/src/pages/Overview.tsx:29-42 | with non-negative notionals, raising the values never lowers the weighted sum |
| Overview.WeightedSumConst | cross-app-test/ndf-insight-brasil-main/src/pages/Overview.tsx:29-42 | weighting every record by the same c gives c times the total notional |
| Overview.WeightedSumBounds | cross-app-test/ndf-insight-brasil-main/src/pages/Overview.tsx:29-42 | with non-negative notionals and values in [lo, hi] (lo <= 0 <= hi), the weighted sum lies between lo and hi times the total notional |
| Overview.WeightedAverageBounds | cross-app-test/ndf-insight-brasil-main/src/pages/Overview.tsx:29-42 | under the same conditions, the guarded weighted average lies in [lo, hi] |
| Overview.MarkupAverageBounds | cross-app-test/ndf-insight-brasil-main/src/pages/Overview.tsx:29-35 | with non-negative deal notionals and every known deal markup in [lo, hi] (lo <= 0 <= hi), the KPI markup average lies in [lo, hi] |
| Overview.TenorAverageBounds | cross-app-test/ndf-insight-brasil-main/src/pages/Overview.tsx:37-42 | with non-negative deal notionals and every known deal tenor at most hi, the KPI weighted tenor lies in [0, hi] |
| Overview.PlEntries | cross-app-test/ndf-insight-brasil-main/src/pages/Overview.tsx:65-70 | each deal is filed under its currency with `plBrl \|\| 0` |
| Overview.ScaledTotal | cross-app-test/ndf-insight-brasil-main/src/pages/Overview.tsx:72-78 | the bars in thousands add up to the groups' total in thousands |
| Overview.ResultByCurrency | cross-app-test/ndf-insight-brasil-main/src/pages/Overview.tsx:59-82 | no data gives no bars; otherwise there is one bar per deal currency, in first-appearance order, holding its P&L in thousands, then a "Subtotal" bar equal to the KPI total P&L in thousands |
| Overview.SubtotalIsResult | cross-app-test/ndf-insight-brasil-main/src/pages/Overview.tsx:77-79 | the subtotal bar equals `resultadoTotal / 1000` |
| Overview.ChartedCounts | cross-app-test/ndf-insight-brasil-main/src/pages/Overview.tsx:88-92 | DEAL and REJECTED count their own records; NOT DONE counts both NOTH.DONE and NOT DONE |
| Overview.StatusDistribution | cross-app-test/ndf-insight-brasil-main/src/pages/Overview.tsx:85-99 | no data gives no slices; otherwise the three slices DEAL, NOT DONE and REJECTED, in that order, with those counts |
| Overview.StatusSlicesCoverCharted | cross-app-test/ndf-insight-brasil-main/src/pages/Overview.tsx:88-98 | the three counts never exceed the number of records, and they equal it exactly when no record has any other status |
| Overview.ReasonOf | cross-app-test/ndf-insight-brasil-main/src/pages/Overview.tsx:107 | the reason is the rejection message when that is non-empty, and "Unknown" when it is empty |
| Overview.CountsTotal | cross-app-test/ndf-insight-brasil-main/src/pages/Overview.tsx:105-110 | the reason counts total the number of rejected records |
| Overview.ReasonRows | cross-app-test/ndf-insight-brasil-main/src/pages/Overview.tsx:115-121 | there is one row per reason, holding that reason's count and both percentages |
| Overview.ReasonRowsTotal | cross-app-test/ndf-insight-brasil-main/src/pages/Overview.tsx:115-121 | the rows' counts add up to the groups' total |
| Overview.InsertByValue | cross-app-test/ndf-insight-brasil-main/src/pages/Overview.tsx:122 | inserting into a list sorted by count, largest first, keeps it sorted, adds exactly that row, and adds its count to the total |
| Overview.SortByValueDesc | cross-app-test/ndf-insight-brasil-main/src/pages/Overview.tsx:122 | the result is sorted by count, largest first, and is a permutation of the input |
| Overview.SortKeepsDistinct | cross-app-test/ndf-insight-brasil-main/src/pages/Overview.tsx:115-122 | sorting rows whose names are distinct keeps them distinct |
| Overview.UnsortedReasonsCount | cross-app-test/ndf-insight-brasil-main/src/pages/Overview.tsx:105-121 | each row names the reason of some REJECTED record and counts the REJECTED records giving it; every rejected record's reason has a row; no name has two rows; the counts add up to the number of REJECTED records |
| Overview.RejectionReasons | cross-app-test/ndf-insight-brasil-main/src/pages/Overview.tsx:102-123 | no data gives no rows; otherwise the rows are sorted by count, largest first; each row names the reason of some REJECTED record and counts the REJECTED records giving it; every such reason has a row; no name has two rows; the counts add up to the number of REJECTED records |
| Overview.ClientEntries | cross-app-test/ndf-insight-brasil-main/src/pages/Overview.tsx:131-135 | every record that names a counterparty is filed under it with its notional, and every entry comes from such a record; no entry has the empty name |
| Overview.ClientSums | cross-app-test/ndf-insight-brasil-main/src/pages/Overview.tsx:131-135 | the accumulator holds, for each named client, the sum of the notionals of that client's records, and nothing under the empty name |
| Overview.ClientTotalsMeaning | cross-app-test/ndf-insight-brasil-main/src/pages/Overview.tsx:131-144 | `Object.values(clientNotionals)` holds one total per named client, in first-seen order, each the sum of that client's notionals, and every named client has one |
| Overview.RangeOf | cross-app-test/ndf-insight-brasil-main/src/pages/Overview.tsx:137-149 | a client total falls in no range exactly when it is negative, in [5000, 10000), or 100000 or more; otherwise it falls in exactly one range |
| Overview.HistogramPartition | cross-app-test/ndf-insight-brasil-main/src/pages/Overview.tsx:144-151 | every client is counted in exactly one range or in none |
| Overview.CountClient | cross-app-test/ndf-insight-brasil-main/src/pages/Overview.tsx:145-150 | the inner loop adds one to the count of the range holding the total and changes nothing else |
| Overview.CountAll | cross-app-test/ndf-insight-brasil-main/src/pages/Overview.tsx:144-151 | starting from the declared ranges, each range ends up counting exactly the totals that fall in it |
| Overview.ClientNotionalDistribution | cross-app-test/ndf-insight-brasil-main/src/pages/Overview.tsx:126-154 | no data gives no ranges; otherwise the four declared ranges, each counting the clients whose total notional falls in it |

## Left out

- Papa Parse (CSV tokenizing, `header: true`, `skipEmptyLines`, `preview`) is not modelled. A parsed file is given as its sequence of rows, each a map from header to cell text; a header the row has no cell for is absent from the map, as JavaScript `undefined` is.
- `new Date(text)` is a parameter `parseDate` that maps text to a millisecond timestamp, or to None for an Invalid Date. JavaScript's date-string grammar and time zones are not modelled.
- `parseFloat` is modelled on decimal text only: white space, sign, digits, fraction and exponent. The IEEE-754 rounding of the result is not modelled; values are exact reals. The literal text "Infinity" gives None here, where JavaScript gives `Infinity`; an overflowing exponent (such as "1e400") gives its exact real here, where JavaScript gives `Infinity`.
- BrazilianNumber.ParseBrazilianNumber does not model a JavaScript number argument that is NaN; the `Num` case returns its value unchanged, as the source does.
- `toUpperCase`/`toLowerCase` are modelled on ASCII letters only. Other letters (such as "ç", "ß") are left unchanged, whereas JavaScript maps them.
- A record's `status` is `row["Status"] as NDFRecord["status"]`, an unchecked cast. The model keeps any string. When the Status cell is missing, the source stores `undefined`; the model stores "".
- In mapped mode, a parity that is mapped but missing from the row is stored as `undefined` by the source. The model stores "", and the throw that the missing parity can cause is modelled.
- `Object.entries` lists integer-like keys (such as a currency "1") in numeric order before the others. The model lists every key in insertion order.
- Grouping.GroupSum, Overview.ResultByCurrency, Overview.RejectionReasons, Overview.ClientNotionalDistribution: the accumulators are plain `{}` objects. A key that names an `Object.prototype` member (a currency, reason or client called "constructor", "toString" and the like) starts in JavaScript from the inherited function rather than from 0, so its value becomes text, not a sum. The model starts every key at 0.
- Overview.SortByValueDesc: the source uses `Array.prototype.sort`, which is stable. The model's insertion sort is stable too, but stability is not stated in its contract; the contract states order and permutation only.
- The percentages of the rejection rows, the K/M formatters, toasts, charts and the progress bar are display code and are not modelled beyond the values the rows hold.
- ImportWizard.Wizard.HandleNext: the disabled states of the buttons (`loading`, `!file`) are not modelled as preconditions; the handlers are modelled as the source writes them.
- ImportWizard.Wizard.HandleFileSelect: the two Papa Parse passes run asynchronously. Their callbacks are the separate methods CountComplete, PreviewComplete and PreviewFailed, which may arrive in any order; the interleaving is not modelled further.
- `onImportComplete` and `onOpenChange` are callbacks into code outside this model. HandleImport returns the imported records instead of calling them.
- The preview and confirm steps' rendering (CSVUploadStep, ConfirmImportStep) is not part of this model.
- Overview.MarkupAverageBounds: the bound needs non-negative deal notionals. The source does not guarantee them, since a notional can parse as negative, so the lemma takes them as a precondition.
