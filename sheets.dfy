/** The sheet reader behind `/api/sheets`: it takes the grid of string cells read from
    the spreadsheet, builds one record per week column, and then scans the rows from the
    third on with a small state machine over the current section ("Detalle Ingresos",
    "Detalle Egresos"/"OPEX", "CAPEX", "Impuestos"), storing the non-empty cells of each
    data row into that section's map of the matching week, keyed by the row label.

    The scan itself is `ReadSheet` (with `WriteRow` for the per-row cell loop); it is
    proved to produce `Expected(rows)`, which is defined week by week and section by
    section through `DetailUpTo`, and the lemmas below say what that definition means. */
module Sheets {
  import opened Wrappers

  type Row = seq<string>
  type Grid = seq<Row>

  /** The four detail maps a week record carries. */
  datatype Section = Ingresos | Egresos | Capex | Impuestos

  /** One week column of the sheet: its month cell (absent when row 0 is shorter than
      row 1), its week label, and one map from category label to raw cell text per section. */
  datatype WeekRecord = WeekRecord(
    mes: Option<string>,
    semana: string,
    ingresosDetalle: map<string, string>,
    egresosDetalle: map<string, string>,
    capexDetalle: map<string, string>,
    impuestosDetalle: map<string, string>)
  {
    function Detail(s: Section): map<string, string>
    {
      match s
      case Ingresos => ingresosDetalle
      case Egresos => egresosDetalle
      case Capex => capexDetalle
      case Impuestos => impuestosDetalle
    }

    /** `record[section][name] = v`: the one entry is set, everything else is kept. */
    function Store(s: Section, name: string, v: string): (r: WeekRecord)
      ensures r.mes == mes && r.semana == semana
      ensures r.Detail(s).Keys == Detail(s).Keys + {name}
      ensures name in r.Detail(s) && r.Detail(s)[name] == v
      ensures forall k :: k in Detail(s) && k != name ==> r.Detail(s)[k] == Detail(s)[k]
      ensures forall t :: t != s ==> r.Detail(t) == Detail(t)
    {
      match s
      case Ingresos => this.(ingresosDetalle := ingresosDetalle[name := v])
      case Egresos => this.(egresosDetalle := egresosDetalle[name := v])
      case Capex => this.(capexDetalle := capexDetalle[name := v])
      case Impuestos => this.(impuestosDetalle := impuestosDetalle[name := v])
    }
  }

  /** What a row's label does to the scan. */
  datatype RowKind = Blank | Header(section: Section) | Closer | Data

  const ErrorMessage := "Error leyendo Google Sheets"

  datatype Body = Semanas(semanas: seq<WeekRecord>) | Failure(error: string)
  datatype Response = Response(status: int, body: Body)

  /** The first cell of a row; an empty row has no label, which reads as blank. */
  function Label(row: Row): string
  {
    if |row| == 0 then "" else row[0]
  }

  /** The cell of a row that belongs to week `w` (column `w + 1`); "" when the row is
      shorter, which is what the cell loop treats as "nothing to store". */
  function Cell(row: Row, w: nat): string
  {
    if w + 1 < |row| then row[w + 1] else ""
  }

  /** The classification of a label, in the order the scan tests it: blank first, then
      the exact, case-sensitive section headers, then the "Total"/"SALDO" prefixes. */
  function Classify(name: string): (k: RowKind)
    ensures k == Blank <==> name == ""
    ensures k == Header(Ingresos) <==> name == "Detalle Ingresos"
    ensures k == Header(Egresos) <==> name == "Detalle Egresos" || name == "OPEX"
    ensures k == Header(Capex) <==> name == "CAPEX"
    ensures k == Header(Impuestos) <==> name == "Impuestos"
    ensures k == Closer <==> "Total" <= name || "SALDO" <= name
  {
    // None of the header labels starts with "Total" or "SALDO": they differ at the first letter.
    if name == "" then Blank
    else if name == "Detalle Ingresos" then assert name[0] == 'D'; Header(Ingresos)
    else if name == "Detalle Egresos" || name == "OPEX" then assert name[0] in {'D', 'O'}; Header(Egresos)
    else if name == "CAPEX" then assert name[0] == 'C'; Header(Capex)
    else if name == "Impuestos" then assert name[0] == 'I'; Header(Impuestos)
    else if "Total" <= name || "SALDO" <= name then Closer
    else Data
  }

  /** The section in force after a row with this label. */
  function NextSection(current: Option<Section>, name: string): (next: Option<Section>)
    ensures Classify(name) == Blank ==> next == current
    ensures Classify(name) == Data ==> next == current
    ensures Classify(name) == Closer ==> next == None
    ensures Classify(name).Header? ==> next == Some(Classify(name).section)
  {
    match Classify(name)
    case Blank => current
    case Header(s) => Some(s)
    case Closer => None
    case Data => current
  }

  /** The section in force when row `i` is read; the scan starts at row 2 with none. */
  function SectionAt(rows: Grid, i: nat): Option<Section>
    requires i <= |rows|
  {
    if i <= 2 then None else NextSection(SectionAt(rows, i - 1), Label(rows[i - 1]))
  }

  /** Row `r` stores a value into section `s` of week `w`. */
  predicate WritesTo(rows: Grid, r: nat, w: nat, s: Section)
    requires r < |rows|
  {
    2 <= r && Classify(Label(rows[r])) == Data && SectionAt(rows, r) == Some(s) && Cell(rows[r], w) != ""
  }

  /** Section `s` of week `w` once rows 2 .. hi-1 have been scanned. */
  function DetailUpTo(rows: Grid, hi: nat, w: nat, s: Section): map<string, string>
    requires hi <= |rows|
  {
    if hi <= 2 then map[]
    else
      var m := DetailUpTo(rows, hi - 1, w, s);
      if WritesTo(rows, hi - 1, w, s) then m[Label(rows[hi - 1]) := Cell(rows[hi - 1], w)] else m
  }

  /** Number of week columns: row 1 without its label column. */
  function WeekCount(rows: Grid): nat
    requires |rows| >= 2
  {
    if |rows[1]| == 0 then 0 else |rows[1]| - 1
  }

  /** The month of week `w`, taken from row 0 at the same column with no forward fill. */
  function Month(rows: Grid, w: nat): Option<string>
    requires |rows| >= 1
  {
    if w + 1 < |rows[0]| then Some(rows[0][w + 1]) else None
  }

  /** The record of week `w` once rows 2 .. hi-1 have been scanned. */
  function RecordAfter(rows: Grid, hi: nat, w: nat): WeekRecord
    requires 2 <= |rows| && hi <= |rows| && w < WeekCount(rows)
  {
    WeekRecord(Month(rows, w), rows[1][w + 1],
               DetailUpTo(rows, hi, w, Ingresos), DetailUpTo(rows, hi, w, Egresos),
               DetailUpTo(rows, hi, w, Capex), DetailUpTo(rows, hi, w, Impuestos))
  }

  /** The week records the reader answers with. */
  function Expected(rows: Grid): (r: seq<WeekRecord>)
    requires |rows| >= 2
    ensures |r| == WeekCount(rows)
    ensures forall w :: 0 <= w < |r| ==> r[w].semana == rows[1][w + 1] && r[w].mes == Month(rows, w)
  {
    seq(WeekCount(rows), w requires 0 <= w < WeekCount(rows) => RecordAfter(rows, |rows|, w))
  }

  /** One row's effect on one week record: it changes only when the row is a data row of
      an open section with a non-empty cell for that week. */
  lemma RecordStep(rows: Grid, i: nat, w: nat)
    requires 2 <= i < |rows| && w < WeekCount(rows)
    ensures RecordAfter(rows, i + 1, w) ==
      if Classify(Label(rows[i])) == Data && SectionAt(rows, i).Some? && Cell(rows[i], w) != ""
      then RecordAfter(rows, i, w).Store(SectionAt(rows, i).value, Label(rows[i]), Cell(rows[i], w))
      else RecordAfter(rows, i, w)
  {
  }

  /** The `values.forEach` over one data row: cell `idx` goes into `weeks[idx]` when it is
      non-empty and such a week exists; cells past the last week are dropped. */
  method WriteRow(weeks: array<WeekRecord>, s: Section, name: string, values: seq<string>)
    modifies weeks
    ensures forall w :: 0 <= w < weeks.Length ==>
      weeks[w] == if w < |values| && values[w] != "" then old(weeks[w]).Store(s, name, values[w]) else old(weeks[w])
  {
    var idx := 0;
    while idx < |values|
      invariant 0 <= idx <= |values|
      invariant forall w :: 0 <= w < weeks.Length ==>
        weeks[w] == if w < idx && values[w] != "" then old(weeks[w]).Store(s, name, values[w]) else old(weeks[w])
    {
      var v := values[idx];
      if v != "" && idx < weeks.Length {
        weeks[idx] := weeks[idx].Store(s, name, v);
      }
      idx := idx + 1;
    }
  }

  /** The handler body between the grid fetch and the response. `values` is the grid as
      read (`None` when the sheet returned no values); a grid without its two header rows
      makes the header indexing throw, which the handler turns into a 500. */
  method ReadSheet(values: Option<Grid>) returns (resp: Response)
    ensures values.None? || |values.value| < 2 ==> resp == Response(500, Failure(ErrorMessage))
    ensures values.Some? && |values.value| >= 2 ==> resp == Response(200, Semanas(Expected(values.value)))
  {
    if values.None? || |values.value| < 2 {
      return Response(500, Failure(ErrorMessage));
    }
    var rows := values.value;
    var n := WeekCount(rows);
    var weeks := new WeekRecord[n](w requires 0 <= w < n =>
      WeekRecord(Month(rows, w), rows[1][w + 1], map[], map[], map[], map[]));
    var current: Option<Section> := None;
    var i := 2;
    while i < |rows|
      invariant 2 <= i <= |rows|
      invariant weeks.Length == n
      invariant current == SectionAt(rows, i)
      invariant forall w :: 0 <= w < n ==> weeks[w] == RecordAfter(rows, i, w)
    {
      var name := Label(rows[i]);
      var cells := if |rows[i]| == 0 then [] else rows[i][1..];
      if name == "" {
      } else if name == "Detalle Ingresos" {
        current := Some(Ingresos);
      } else if name == "Detalle Egresos" || name == "OPEX" {
        current := Some(Egresos);
      } else if name == "CAPEX" {
        current := Some(Capex);
      } else if name == "Impuestos" {
        current := Some(Impuestos);
      } else if "Total" <= name || "SALDO" <= name {
        current := None;
      } else if current.Some? {
        WriteRow(weeks, current.value, name, cells);
      }
      forall w | 0 <= w < n
        ensures weeks[w] == RecordAfter(rows, i + 1, w)
      {
        RecordStep(rows, i, w);
      }
      i := i + 1;
    }
    assert weeks[..] == Expected(rows);
    resp := Response(200, Semanas(weeks[..]));
  }

  /** Until the first header or closer, no section is open: blank and data rows alone
      never open one, so data rows above the first header are ignored. */
  lemma {:induction false} SectionBeforeAnyHeader(rows: Grid, i: nat)
    requires 2 <= i <= |rows|
    requires forall k :: 2 <= k < i ==> Classify(Label(rows[k])) in {Blank, Data}
    ensures SectionAt(rows, i) == None
  {
    if i > 2 {
      SectionBeforeAnyHeader(rows, i - 1);
    }
  }

  /** The section in force at row `i` is set by the last header or closer above it:
      the header's section, or none after a closer, however many blank or data rows follow. */
  lemma {:induction false} SectionAfterSwitch(rows: Grid, j: nat, i: nat)
    requires 2 <= j < i <= |rows|
    requires Classify(Label(rows[j])).Header? || Classify(Label(rows[j])) == Closer
    requires forall k :: j < k < i ==> Classify(Label(rows[k])) in {Blank, Data}
    ensures SectionAt(rows, i) == if Classify(Label(rows[j])).Header? then Some(Classify(Label(rows[j])).section) else None
  {
    if i > j + 1 {
      SectionAfterSwitch(rows, j, i - 1);
    }
  }

  /** A label is a key of section `s` of week `w` exactly when some scanned data row with
      that label was read while `s` was open and has a non-empty cell for that week. */
  lemma {:induction false} DetailKeys(rows: Grid, hi: nat, w: nat, s: Section, name: string)
    requires hi <= |rows|
    ensures name in DetailUpTo(rows, hi, w, s) <==>
      exists r :: 2 <= r < hi && WritesTo(rows, r, w, s) && Label(rows[r]) == name
  {
    if hi > 2 {
      DetailKeys(rows, hi - 1, w, s, name);
    }
  }

  /** A repeated label overwrites: the value kept is the cell of the last row with that
      label that wrote to the same section and week. */
  lemma {:induction false} DetailLastWins(rows: Grid, hi: nat, w: nat, s: Section, r: nat)
    requires 2 <= r < hi <= |rows|
    requires WritesTo(rows, r, w, s)
    requires forall q :: r < q < hi && WritesTo(rows, q, w, s) ==> Label(rows[q]) != Label(rows[r])
    ensures Label(rows[r]) in DetailUpTo(rows, hi, w, s)
    ensures DetailUpTo(rows, hi, w, s)[Label(rows[r])] == Cell(rows[r], w)
  {
    if hi > r + 1 {
      DetailLastWins(rows, hi - 1, w, s, r);
    }
  }

  /** Every stored value is a non-empty cell taken as is from a data row. */
  lemma {:induction false} DetailValuesAreCells(rows: Grid, hi: nat, w: nat, s: Section, name: string)
    requires hi <= |rows|
    requires name in DetailUpTo(rows, hi, w, s)
    ensures DetailUpTo(rows, hi, w, s)[name] != ""
    ensures exists r :: 2 <= r < hi && WritesTo(rows, r, w, s) && Label(rows[r]) == name
                        && Cell(rows[r], w) == DetailUpTo(rows, hi, w, s)[name]
  {
    var r := hi - 1;
    if WritesTo(rows, r, w, s) && Label(rows[r]) == name {
      assert DetailUpTo(rows, hi, w, s)[name] == Cell(rows[r], w);
    } else {
      DetailValuesAreCells(rows, r, w, s, name);
    }
  }

  /** Section headers, closers and blank labels are never stored as categories. */
  lemma StoredLabelsAreCategories(rows: Grid, hi: nat, w: nat, s: Section, name: string)
    requires hi <= |rows|
    requires name in DetailUpTo(rows, hi, w, s)
    ensures name != "" && !("Total" <= name) && !("SALDO" <= name)
    ensures name !in {"Detalle Ingresos", "Detalle Egresos", "OPEX", "CAPEX", "Impuestos"}
  {
    DetailKeys(rows, hi, w, s, name);
    var r :| 2 <= r < hi && WritesTo(rows, r, w, s) && Label(rows[r]) == name;
  }

  /** Rows 0 and 1 give only the months and week labels: grids that agree from row 2 on
      have the same section at every row and the same detail maps. */
  lemma {:induction false} HeaderRowsIgnored(rows: Grid, other: Grid, hi: nat, w: nat, s: Section)
    requires hi <= |rows| && hi <= |other|
    requires forall k :: 2 <= k < hi ==> rows[k] == other[k]
    ensures SectionAt(rows, hi) == SectionAt(other, hi)
    ensures DetailUpTo(rows, hi, w, s) == DetailUpTo(other, hi, w, s)
  {
    if hi > 2 {
      HeaderRowsIgnored(rows, other, hi - 1, w, s);
    }
  }
}
