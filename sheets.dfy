/**
 * The direct structuring of a parsed JSON value into sheet writes
 * (`direct_json_to_excel`, main.py:113-155) and the single-sheet fallback of
 * the older service (main_backup.py:237-254).
 *
 * A plan is the ordered list of `df.to_excel(writer, sheet_name=...)` calls the
 * code makes; how the workbook writer merges repeated writes to one sheet name
 * is the writer's business and is not modelled.
 */
module SheetPlan {
  import opened JsonValue
  import Naming

  /** One record of a table: column name and cell value, in column order. */
  type Row = seq<(string, Json)>

  /** One `to_excel` call: the target sheet and the rows written to it. */
  datatype SheetWrite = SheetWrite(sheet: string, rows: seq<Row>)

  const DataSheet := "Data"
  const SummarySheet := "Summary"
  const ValueColumn := "value"

  // ---------------------------------------------------------------------------
  // Record normalisation: a stand-in for `pd.json_normalize` on its default path
  // ---------------------------------------------------------------------------

  /** The column name of `key` nested under `path`, joined with `.`. */
  function JoinKey(path: string, key: string): string {
    if path == "" then key else path + "." + key
  }

  /** The columns a value contributes under `path`: nested objects are opened
      recursively, every other value is one cell. */
  function FlattenValue(path: string, v: Json): (r: Row)
    ensures forall i :: 0 <= i < |r| ==> !r[i].1.Obj?
    decreases v, 1
  {
    match v
    case Obj(fs) => FlattenFields(path, fs, 0)
    case _ => [(path, v)]
  }

  /** The columns of the fields `fs[from..]` of an object nested under `path`. */
  function FlattenFields(path: string, fs: seq<(string, Json)>, from: nat): (r: Row)
    requires from <= |fs|
    ensures forall i :: 0 <= i < |r| ==> !r[i].1.Obj?
    decreases Obj(fs), 0, |fs| - from
  {
    if from == |fs| then []
    else FlattenValue(JoinKey(path, fs[from].0), fs[from].1) + FlattenFields(path, fs, from + 1)
  }

  /** The fields whose value is not an object, in order. */
  function PlainFields(fs: seq<(string, Json)>): (r: seq<(string, Json)>)
    ensures |r| <= |fs|
    ensures forall i :: 0 <= i < |r| ==> !r[i].1.Obj?
  {
    if fs == [] then []
    else (if fs[0].1.Obj? then [] else [fs[0]]) + PlainFields(fs[1..])
  }

  /** The fields whose value is an object, in order. */
  function NestedFields(fs: seq<(string, Json)>): (r: seq<(string, Json)>)
    ensures |r| <= |fs|
    ensures forall i :: 0 <= i < |r| ==> r[i].1.Obj? && r[i] in fs
  {
    if fs == [] then []
    else (if fs[0].1.Obj? then [fs[0]] else []) + NestedFields(fs[1..])
  }

  /** One record as a row: the top-level non-object fields first, then the
      nested objects flattened into dotted columns. A record that is not an
      object contributes a row with no columns. */
  function NormalizeRecord(record: Json): (r: Row)
    ensures forall i :: 0 <= i < |r| ==> !r[i].1.Obj?
  {
    match record
    case Obj(fs) => PlainFields(fs) + FlattenFields("", NestedFields(fs), 0)
    case _ => []
  }

  /** `pd.json_normalize(records)`: one row per record, in order. */
  function Normalize(records: seq<Json>): (rows: seq<Row>)
    ensures |rows| == |records|
    ensures forall i :: 0 <= i < |rows| ==> rows[i] == NormalizeRecord(records[i])
  {
    if records == [] then []
    else [NormalizeRecord(records[0])] + Normalize(records[1..])
  }

  /** A record with no nested object is its own row. */
  lemma {:induction false} FlatRecordIsItsRow(fs: seq<(string, Json)>)
    requires forall i :: 0 <= i < |fs| ==> !fs[i].1.Obj?
    ensures NormalizeRecord(Obj(fs)) == fs
  {
    if fs != [] {
      FlatRecordIsItsRow(fs[1..]);
      assert NestedFields(fs) == [];
      assert PlainFields(fs) == [fs[0]] + PlainFields(fs[1..]);
    }
  }

  // ---------------------------------------------------------------------------
  // The sheet plan of direct_json_to_excel
  // ---------------------------------------------------------------------------

  /** The write for one top-level key of an object (main.py:133-145). */
  function KeyWrite(key: string, value: Json): SheetWrite {
    match value
    case Arr(items) => SheetWrite(Naming.SheetName(key), Normalize(items))
    case Obj(_) => SheetWrite(Naming.SheetName(key), Normalize([value]))
    case _ => SheetWrite(SummarySheet, [[(key, value)]])
  }

  /** The loop over `data.items()`: one write per key, in insertion order. */
  function KeyWrites(fs: seq<(string, Json)>): (r: seq<SheetWrite>)
    ensures |r| == |fs|
  {
    if fs == [] then [] else [KeyWrite(fs[0].0, fs[0].1)] + KeyWrites(fs[1..])
  }

  /** The writes `direct_json_to_excel` makes for a parsed value. */
  function Plan(j: Json): (r: seq<SheetWrite>)
    ensures j.Arr? ==> |r| == 1 && r[0].sheet == DataSheet && |r[0].rows| == |j.items|
    ensures j.Obj? ==> |r| == |j.fields|
    ensures !j.IsContainer() ==> r == [SheetWrite(DataSheet, [[(ValueColumn, j)]])]
  {
    match j
    case Arr(items) => [SheetWrite(DataSheet, Normalize(items))]
    case Obj(fs) => KeyWrites(fs)
    case _ => [SheetWrite(DataSheet, [[(ValueColumn, j)]])]
  }

  /** The i-th write of an object's plan comes from its i-th key: a list or
      object value goes to the key cut to 31 characters, an object as one row
      and a list as one row per element; a scalar goes to `Summary` as the
      single one-column row `{key: value}`. */
  lemma {:induction false} PlanOfObjectAt(fs: seq<(string, Json)>, i: nat)
    requires i < |fs|
    ensures var w := Plan(Obj(fs))[i];
      var key := fs[i].0;
      var value := fs[i].1;
      && (value.IsContainer() ==>
            && w.sheet == Naming.SheetName(key)
            && |w.sheet| <= Naming.SheetNameLimit
            && w.sheet == key[..|w.sheet|])
      && (value.Obj? ==> |w.rows| == 1)
      && (value.Arr? ==> |w.rows| == |value.items|)
      && (!value.IsContainer() ==> w == SheetWrite(SummarySheet, [[(key, value)]]))
    decreases i
  {
    if i > 0 {
      PlanOfObjectAt(fs[1..], i - 1);
      assert KeyWrites(fs)[i] == KeyWrites(fs[1..])[i - 1];
    }
  }

  /** An empty object plans no write at all: the code adds no placeholder sheet. */
  lemma EmptyObjectPlansNothing()
    ensures Plan(Obj([])) == []
  {
  }

  /** The writes that land on `Summary` are exactly those of the scalar values
      and of a container under the key `Summary` itself: nothing keeps the two apart. */
  lemma {:induction false} SummaryWrites(fs: seq<(string, Json)>, i: nat)
    requires i < |fs|
    ensures Plan(Obj(fs))[i].sheet == SummarySheet <==> (!fs[i].1.IsContainer() || fs[i].0 == SummarySheet)
  {
    PlanOfObjectAt(fs, i);
    var key := fs[i].0;
    var name := Naming.SheetName(key);
    if fs[i].1.IsContainer() && name == SummarySheet {
      assert |name| < Naming.SheetNameLimit;
      assert key == name;
    }
  }

  // ---------------------------------------------------------------------------
  // The single-sheet fallback of main_backup.py
  // ---------------------------------------------------------------------------

  /** main_backup.py:238-254: everything goes to one `Data` sheet; an object is
      normalised as a one-element list. */
  function FallbackPlan(j: Json): (r: seq<SheetWrite>)
    ensures |r| == 1 && r[0].sheet == DataSheet
    ensures j.Obj? ==> r[0].rows == [NormalizeRecord(j)]
  {
    match j
    case Arr(items) => [SheetWrite(DataSheet, Normalize(items))]
    case Obj(_) => [SheetWrite(DataSheet, Normalize([j]))]
    case _ => [SheetWrite(DataSheet, [[(ValueColumn, j)]])]
  }

  /** For a list or a scalar the two services write the same workbook; they
      differ only on objects, which the newer service splits key by key. */
  lemma FallbackAgreesOffObjects(j: Json)
    requires !j.Obj?
    ensures FallbackPlan(j) == Plan(j)
  {
  }

  /** The fallback row of a flat object holds exactly its fields, in order. */
  lemma FallbackOfFlatObject(fs: seq<(string, Json)>)
    requires forall i :: 0 <= i < |fs| ==> !fs[i].1.Obj?
    ensures FallbackPlan(Obj(fs)) == [SheetWrite(DataSheet, [fs])]
  {
    FlatRecordIsItsRow(fs);
  }
}
