/**
 * The batch pipeline `procesar_tickets`: find the description column, count repeated
 * descriptions, classify every row and flag its urgency in row order, add the two result
 * columns, and split the urgent rows off into their own artifact.
 *
 * A data frame is a `Table` of header names and rows of cell values; a CSV file written by the
 * pipeline is an `Artifact`, its name and the table it holds. Reading and writing the files is
 * not modelled; the time stamp is a parameter.
 */
module Batch {
  import opened Optional
  import opened Text
  import opened Categories
  import opened Urgency
  import opened Hybrid

  /** A cell as pandas reads it: text (numbers included, by their `str()` spelling), a boolean, or a missing value. */
  datatype Value = Str(s: string) | Bool(b: bool) | Missing

  /** `str(value)`. */
  function Render(v: Value): string
  {
    match v
    case Str(s) => s
    case Bool(b) => if b then "True" else "False"
    case Missing => "nan"
  }

  datatype Table = Table(columns: seq<string>, rows: seq<seq<Value>>)

  /** Every row has one cell per column, as in any data frame. */
  predicate Rectangular(t: Table)
  {
    forall i :: 0 <= i < |t.rows| ==> |t.rows[i]| == |t.columns|
  }

  /** A file the pipeline writes: its name and its contents. */
  datatype Artifact = Artifact(name: string, contents: Table)

  /** The tuple `procesar_tickets` returns; `output.contents` is the returned data frame, and
      `urgent` is the urgent-only file, absent when no row is urgent. */
  datatype BatchResult = BatchResult(
    output: Artifact,
    urgent: Option<Artifact>,
    total: nat,
    urgentCount: nat,
    duplicates: nat)

  datatype BatchOutcome = Done(result: BatchResult) | SchemaError(message: string)

  const MissingColumnMessage :=
    "El CSV debe contener una columna llamada 'descripcion' (no se encontró, revise el encabezado)"

  /** `[f(x) for x in xs]`. */
  function MapSeq<A, B>(f: A -> B, xs: seq<A>): (ys: seq<B>)
    ensures |ys| == |xs|
  {
    seq(|xs|, i requires 0 <= i < |xs| => f(xs[i]))
  }

  /** `col.strip().lower()`. */
  function HeaderKey(name: string): string
  {
    Lower(Strip(name))
  }

  /** Normalizing a header never lengthens it. */
  lemma HeaderKeyLength(name: string)
    ensures |HeaderKey(name)| <= |name|
  {
    assert |Strip(name)| <= |name| by { StripSlice(name); }
  }

  /** A header with no upper-case letter and no white space at either end is its own key. */
  lemma KeyOfNormalHeader(name: string)
    requires forall i :: 0 <= i < |name| ==> !IsUpper(name[i])
    requires name != [] ==> !IsSpace(name[0]) && !IsSpace(name[|name| - 1])
    ensures HeaderKey(name) == name
  {
    assert Strip(name) == name by { StripKeepsTrimmed(name); }
    assert Lower(name) == name by { LowerKeepsLowerCase(name); }
  }

  /** The normalized header of every column. */
  function HeaderKeys(columns: seq<string>): (keys: seq<string>)
    ensures |keys| == |columns|
    ensures forall i :: 0 <= i < |columns| ==> keys[i] == HeaderKey(columns[i])
  {
    MapSeq(HeaderKey, columns)
  }

  /** The search of `procesar_tickets` for the first column whose normalized header is "descripcion". */
  function DescriptionColumn(columns: seq<string>): Option<nat>
  {
    var k := IndexOf(HeaderKeys(columns), "descripcion");
    if k < |columns| then Some(k) else None
  }

  /** The search stops at the first column whose header, stripped of surrounding blanks and
      lower-cased, reads "descripcion", and finds nothing exactly when no header does. */
  lemma DescriptionColumnSpec(columns: seq<string>)
    ensures DescriptionColumn(columns).Some? ==>
              && DescriptionColumn(columns).value < |columns|
              && HeaderKey(columns[DescriptionColumn(columns).value]) == "descripcion"
              && forall j :: 0 <= j < DescriptionColumn(columns).value ==> HeaderKey(columns[j]) != "descripcion"
    ensures DescriptionColumn(columns).None? <==> forall j :: 0 <= j < |columns| ==> HeaderKey(columns[j]) != "descripcion"
  {
    IndexOfMapped(HeaderKey, columns, "descripcion");
  }

  /** Searching the images of `xs` under `f` for `name` finds the first element whose image is `name`. */
  lemma IndexOfMapped<A>(f: A -> string, xs: seq<A>, name: string)
    ensures var k := IndexOf(MapSeq(f, xs), name);
            && k <= |xs|
            && (k < |xs| ==> f(xs[k]) == name)
            && (forall j :: 0 <= j < k ==> f(xs[j]) != name)
            && (k == |xs| <==> forall j :: 0 <= j < |xs| ==> f(xs[j]) != name)
  {
    var keys := MapSeq(f, xs);
    assert forall j :: 0 <= j < |xs| ==> keys[j] == f(xs[j]);
  }

  /** The cells of column `col`. */
  function ColumnValues(t: Table, col: nat): (vs: seq<Value>)
    requires Rectangular(t) && col < |t.columns|
    ensures |vs| == |t.rows| && forall i :: 0 <= i < |t.rows| ==> vs[i] == t.rows[i][col]
  {
    seq(|t.rows|, i requires 0 <= i < |t.rows| => t.rows[i][col])
  }

  /** `df.duplicated(subset=[col]).sum()`: the number of cells equal to some cell before them. */
  function Duplicates(vs: seq<Value>): (d: nat)
    ensures vs != [] ==> d < |vs|
    decreases |vs|
  {
    if vs == [] then 0
    else Duplicates(vs[..|vs| - 1]) + (if vs[|vs| - 1] in vs[..|vs| - 1] then 1 else 0)
  }

  /** The values occurring in `vs`. */
  function Distinct(vs: seq<Value>): set<Value>
  {
    set v | v in vs
  }

  /** Counting duplicates counts every cell but the first occurrence of each value. */
  lemma {:induction false} DuplicatesSpec(vs: seq<Value>)
    ensures Duplicates(vs) == |vs| - |Distinct(vs)|
    decreases |vs|
  {
    if vs != [] {
      var init, last := vs[..|vs| - 1], vs[|vs| - 1];
      DuplicatesSpec(init);
      assert vs == init + [last];
      assert Distinct(vs) == Distinct(init) + {last};
      if last in init {
        assert Distinct(vs) == Distinct(init);
      } else {
        assert last !in Distinct(init);
      }
    }
  }

  /** A column with no repeated value has no duplicates, and one with a repeated value has some. */
  lemma NoDuplicatesIffDistinct(vs: seq<Value>)
    ensures Duplicates(vs) == 0 <==> forall i, j :: 0 <= i < j < |vs| ==> vs[i] != vs[j]
  {
    DuplicatesSpec(vs);
    if exists i, j :: 0 <= i < j < |vs| && vs[i] == vs[j] {
      var i, j :| 0 <= i < j < |vs| && vs[i] == vs[j];
      DistinctBound(vs, j);
    } else {
      DistinctAll(vs);
    }
  }

  /** A sequence whose cell `j` repeats an earlier cell holds fewer values than cells. */
  lemma {:induction false} DistinctBound(vs: seq<Value>, j: nat)
    requires j < |vs| && vs[j] in vs[..j]
    ensures |Distinct(vs)| < |vs|
    decreases |vs|
  {
    var init, last := vs[..|vs| - 1], vs[|vs| - 1];
    assert vs == init + [last];
    assert Distinct(vs) == Distinct(init) + {last};
    DistinctAtMost(init);
    if j == |vs| - 1 {
      assert last in Distinct(init);
    } else {
      assert init[j] == vs[j] && init[..j] == vs[..j];
      DistinctBound(init, j);
    }
  }

  /** A sequence holds at most as many values as cells. */
  lemma {:induction false} DistinctAtMost(vs: seq<Value>)
    ensures |Distinct(vs)| <= |vs|
    decreases |vs|
  {
    if vs != [] {
      var init, last := vs[..|vs| - 1], vs[|vs| - 1];
      assert vs == init + [last];
      assert Distinct(vs) == Distinct(init) + {last};
      DistinctAtMost(init);
    }
  }

  /** A sequence without repeated cells holds as many values as cells. */
  lemma {:induction false} DistinctAll(vs: seq<Value>)
    requires forall i, j :: 0 <= i < j < |vs| ==> vs[i] != vs[j]
    ensures |Distinct(vs)| == |vs|
    decreases |vs|
  {
    if vs != [] {
      var init, last := vs[..|vs| - 1], vs[|vs| - 1];
      assert vs == init + [last];
      assert Distinct(vs) == Distinct(init) + {last};
      assert last !in Distinct(init);
      DistinctAll(init);
    }
  }

  /** The position of the first column named `name`, or `|columns|` when there is none. */
  function IndexOf(columns: seq<string>, name: string): (k: nat)
    ensures k <= |columns|
    ensures k < |columns| ==> columns[k] == name
    ensures forall j :: 0 <= j < k ==> columns[j] != name
    decreases |columns|
  {
    if columns == [] then 0
    else if columns[0] == name then 0
    else 1 + IndexOf(columns[1..], name)
  }

  /** The header after `df[name] = ...`: unchanged when the column exists, else extended by `name`. */
  function WithColumn(columns: seq<string>, name: string): seq<string>
  {
    if name in columns then columns else columns + [name]
  }

  /** `df[name] = values`: overwrite the column called `name` if there is one, else append it. */
  function SetColumn(t: Table, name: string, values: seq<Value>): (r: Table)
    requires Rectangular(t) && |values| == |t.rows|
    ensures Rectangular(r) && |r.rows| == |t.rows|
    ensures r.columns == WithColumn(t.columns, name)
    ensures IndexOf(r.columns, name) < |r.columns|
    ensures forall i :: 0 <= i < |t.rows| ==> r.rows[i][IndexOf(r.columns, name)] == values[i]
    ensures forall i, j :: 0 <= i < |t.rows| && 0 <= j < |t.columns| && t.columns[j] != name ==>
              r.rows[i][j] == t.rows[i][j]
  {
    var k := IndexOf(t.columns, name);
    if k < |t.columns| then
      Table(t.columns, seq(|t.rows|, i requires 0 <= i < |t.rows| => t.rows[i][k := values[i]]))
    else
      var r := Table(t.columns + [name], seq(|t.rows|, i requires 0 <= i < |t.rows| => t.rows[i] + [values[i]]));
      assert IndexOf(r.columns, name) == k by { IndexOfAppend(t.columns, name); }
      r
  }

  /** Appending a name absent from the header puts it last. */
  lemma {:induction false} IndexOfAppend(columns: seq<string>, name: string)
    requires name !in columns
    ensures IndexOf(columns + [name], name) == |columns|
    decreases |columns|
  {
    if columns != [] {
      assert (columns + [name])[1..] == columns[1..] + [name];
      IndexOfAppend(columns[1..], name);
    }
  }

  /** The positions whose flag is set, in increasing order. */
  function TrueIndices(keep: seq<bool>): (idx: seq<nat>)
    ensures forall k :: 0 <= k < |idx| ==> idx[k] < |keep| && keep[idx[k]]
    ensures forall k, m :: 0 <= k < m < |idx| ==> idx[k] < idx[m]
    ensures forall i :: 0 <= i < |keep| && keep[i] ==> i in idx
    decreases |keep|
  {
    if keep == [] then []
    else TrueIndices(keep[..|keep| - 1]) + (if keep[|keep| - 1] then [|keep| - 1] else [])
  }

  /** `df[df['urgente']]`: the rows whose flag is set. */
  function Filter<T>(xs: seq<T>, keep: seq<bool>): (kept: seq<T>)
    requires |xs| == |keep|
    ensures |kept| <= |xs|
    ensures forall k :: 0 <= k < |kept| ==> kept[k] in xs
    decreases |xs|
  {
    if xs == [] then []
    else Filter(xs[..|xs| - 1], keep[..|keep| - 1]) + (if keep[|keep| - 1] then [xs[|xs| - 1]] else [])
  }

  /** The filter keeps exactly the flagged rows, in their original order: its k-th row is the row
      at the k-th flagged position. */
  lemma {:induction false} FilterSpec<T>(xs: seq<T>, keep: seq<bool>)
    requires |xs| == |keep|
    ensures |Filter(xs, keep)| == |TrueIndices(keep)|
    ensures forall k :: 0 <= k < |Filter(xs, keep)| ==> Filter(xs, keep)[k] == xs[TrueIndices(keep)[k]]
    decreases |xs|
  {
    if xs != [] {
      FilterSpec(xs[..|xs| - 1], keep[..|keep| - 1]);
    }
  }

  /** No flagged row leaves the filter empty, and the filter is empty only then. */
  lemma FilterEmptyIff<T>(xs: seq<T>, keep: seq<bool>)
    requires |xs| == |keep|
    ensures |Filter(xs, keep)| == 0 <==> forall i :: 0 <= i < |keep| ==> !keep[i]
  {
    FilterSpec(xs, keep);
    var idx := TrueIndices(keep);
    if exists i :: 0 <= i < |keep| && keep[i] {
      var i :| 0 <= i < |keep| && keep[i];
      assert i in idx;
    }
  }

  /** Name of the main result file when none is given. */
  function DefaultOutputName(timestamp: string): string
  {
    "tickets_clasificados_" + timestamp + ".csv"
  }

  function UrgentName(timestamp: string): string
  {
    "tickets_urgentes_" + timestamp + ".csv"
  }

  /** `if not output_csv`: no name, or the empty name, means the default one. */
  function OutputName(outputName: Option<string>, timestamp: string): string
  {
    if outputName.None? || outputName.value == "" then DefaultOutputName(timestamp) else outputName.value
  }

  /** The default result file and the urgent file of one run never share a name. */
  lemma DefaultNamesDiffer(timestamp: string)
    ensures DefaultOutputName(timestamp) != UrgentName(timestamp)
  {
    assert DefaultOutputName(timestamp)[8] == 'c' && UrgentName(timestamp)[8] == 'u';
  }

  /** `clasificar_texto` with the loaded model, as a function of the text alone. */
  function Classify(model: Classifier): string -> Category
  {
    t => ClasificarTexto(model, t)
  }

  /** `str(descripcion)` for every cell of the description column. */
  function Descriptions(column: seq<Value>): (texts: seq<string>)
    ensures |texts| == |column| && forall i :: 0 <= i < |column| ==> texts[i] == Render(column[i])
  {
    seq(|column|, i requires 0 <= i < |column| => Render(column[i]))
  }

  /** The `categoria` column: the label of every category. */
  function CategoryCells(cats: seq<Category>): (cells: seq<Value>)
    ensures |cells| == |cats| && forall i :: 0 <= i < |cats| ==> cells[i] == Str(Name(cats[i]))
  {
    seq(|cats|, i requires 0 <= i < |cats| => Str(Name(cats[i])))
  }

  /** The `urgente` column: one boolean per row. */
  function FlagCells(flags: seq<bool>): (cells: seq<Value>)
    ensures |cells| == |flags| && forall i :: 0 <= i < |flags| ==> cells[i] == Bool(flags[i])
  {
    seq(|flags|, i requires 0 <= i < |flags| => Bool(flags[i]))
  }

  /** The data frame after `df['categoria'] = ...` and `df['urgente'] = ...`. */
  function Classified(input: Table, cats: seq<Category>, flags: seq<bool>): (t: Table)
    requires Rectangular(input) && |cats| == |input.rows| && |flags| == |input.rows|
    ensures Rectangular(t) && |t.rows| == |input.rows|
  {
    SetColumn(SetColumn(input, "categoria", CategoryCells(cats)), "urgente", FlagCells(flags))
  }

  /** Everything after the per-row loop: add the two columns, split off the urgent rows, count. */
  function Assemble(input: Table, col: nat, cats: seq<Category>, flags: seq<bool>,
                    outputName: Option<string>, timestamp: string): BatchOutcome
    requires Rectangular(input) && col < |input.columns|
    requires |cats| == |input.rows| && |flags| == |input.rows|
  {
    var table := Classified(input, cats, flags);
    var urgentRows := Filter(table.rows, flags);
    Done(BatchResult(
      Artifact(OutputName(outputName, timestamp), table),
      if |urgentRows| > 0 then Some(Artifact(UrgentName(timestamp), Table(table.columns, urgentRows))) else None,
      |input.rows|,
      |urgentRows|,
      Duplicates(ColumnValues(input, col))))
  }

  /** What `procesar_tickets` does with a table, a model, an output name and the run's time stamp. */
  function Procesar(model: Classifier, input: Table, outputName: Option<string>, timestamp: string): BatchOutcome
    requires Rectangular(input)
  {
    match DescriptionColumn(input.columns)
    case None => SchemaError(MissingColumnMessage)
    case Some(col) =>
      Assemble(input, col, RowCategories(model, input, col), UrgencyFlags(input, col), outputName, timestamp)
  }

  /** The category of every row: `clasificar_texto(str(descripcion))`. */
  function RowCategories(model: Classifier, input: Table, col: nat): (cats: seq<Category>)
    requires Rectangular(input) && col < |input.columns|
    ensures |cats| == |input.rows|
  {
    MapSeq(Classify(model), Descriptions(ColumnValues(input, col)))
  }

  /** The urgency flag of every row: `es_urgente(str(descripcion))`. */
  function UrgencyFlags(input: Table, col: nat): (flags: seq<bool>)
    requires Rectangular(input) && col < |input.columns|
    ensures |flags| == |input.rows|
  {
    MapSeq(EsUrgente, Descriptions(ColumnValues(input, col)))
  }

  /** Row `i` is classified and flagged from `str()` of its own description, and from nothing else. */
  lemma RowDecisions(model: Classifier, input: Table, col: nat)
    requires Rectangular(input) && col < |input.columns|
    ensures forall i :: 0 <= i < |input.rows| ==>
              && RowCategories(model, input, col)[i] == ClasificarTexto(model, Render(input.rows[i][col]))
              && UrgencyFlags(input, col)[i] == EsUrgente(Render(input.rows[i][col]))
  {
  }

  /** A table without a description column is refused with the schema message, and only such a table. */
  lemma ProcesarSchemaError(model: Classifier, input: Table, outputName: Option<string>, timestamp: string)
    requires Rectangular(input)
    ensures Procesar(model, input, outputName, timestamp).SchemaError? <==>
              forall j :: 0 <= j < |input.columns| ==> HeaderKey(input.columns[j]) != "descripcion"
    ensures Procesar(model, input, outputName, timestamp).SchemaError? ==>
              Procesar(model, input, outputName, timestamp).message == MissingColumnMessage
  {
    DescriptionColumnSpec(input.columns);
  }

  /** After the loop, every row keeps its cells and gains the label of its category and its
      flag; "categoria" and "urgente" are appended when absent and overwritten when present. */
  lemma AssembleRows(input: Table, col: nat, cats: seq<Category>, flags: seq<bool>,
                     outputName: Option<string>, timestamp: string)
    requires Rectangular(input) && col < |input.columns|
    requires |cats| == |input.rows| && |flags| == |input.rows|
    ensures Assemble(input, col, cats, flags, outputName, timestamp).Done?
    ensures var out := Assemble(input, col, cats, flags, outputName, timestamp).result.output;
            && out.name == OutputName(outputName, timestamp)
            && Rectangular(out.contents) && |out.contents.rows| == |input.rows|
            && "categoria" in out.contents.columns && "urgente" in out.contents.columns
            && input.columns <= out.contents.columns
            && out.contents.columns == WithColumn(WithColumn(input.columns, "categoria"), "urgente")
            && (forall i :: 0 <= i < |input.rows| ==>
                  && out.contents.rows[i][IndexOf(out.contents.columns, "categoria")] == Str(Name(cats[i]))
                  && out.contents.rows[i][IndexOf(out.contents.columns, "urgente")] == Bool(flags[i]))
            && (forall i, j ::
                  (0 <= i < |input.rows| && 0 <= j < |input.columns| &&
                   input.columns[j] != "categoria" && input.columns[j] != "urgente") ==>
                  out.contents.rows[i][j] == input.rows[i][j])
  {
    var first := SetColumn(input, "categoria", CategoryCells(cats));
    var table := Classified(input, cats, flags);
    assert "categoria" in first.columns by {
      assert first.columns[IndexOf(first.columns, "categoria")] == "categoria";
    }
    assert "urgente" in table.columns by {
      assert table.columns[IndexOf(table.columns, "urgente")] == "urgente";
    }
    var k := IndexOf(first.columns, "categoria");
    IndexOfFirst(table.columns, "categoria", k);
    forall i | 0 <= i < |input.rows| ensures table.rows[i][k] == Str(Name(cats[i])) {
      assert first.rows[i][k] == Str(Name(cats[i]));
    }
  }

  /** After the loop, the urgent file holds exactly the flagged rows of the result, in their order,
      under the urgent name of the same time stamp; it is absent exactly when no row is flagged,
      and the count is the number of flagged rows. */
  lemma AssembleUrgent(input: Table, col: nat, cats: seq<Category>, flags: seq<bool>,
                       outputName: Option<string>, timestamp: string)
    requires Rectangular(input) && col < |input.columns|
    requires |cats| == |input.rows| && |flags| == |input.rows|
    ensures var r := Assemble(input, col, cats, flags, outputName, timestamp).result;
            && r.total == |input.rows|
            && r.urgentCount == |TrueIndices(flags)|
            && (r.urgent.None? <==> forall i :: 0 <= i < |flags| ==> !flags[i])
            && (r.urgent.Some? ==>
                  && r.urgent.value.name == UrgentName(timestamp)
                  && r.urgent.value.contents.columns == r.output.contents.columns
                  && |r.urgent.value.contents.rows| == |TrueIndices(flags)|
                  && forall m :: 0 <= m < |TrueIndices(flags)| ==>
                       r.urgent.value.contents.rows[m] == r.output.contents.rows[TrueIndices(flags)[m]])
  {
    var table := Classified(input, cats, flags);
    FilterSpec(table.rows, flags);
    FilterEmptyIff(table.rows, flags);
  }

  /** Every row keeps its cells and gains the label of its category and its urgency flag
      (`RowDecisions` says how both are computed from the row's description). */
  lemma ProcesarRows(model: Classifier, input: Table, outputName: Option<string>, timestamp: string, col: nat)
    requires Rectangular(input) && DescriptionColumn(input.columns) == Some(col)
    ensures Procesar(model, input, outputName, timestamp).Done?
    ensures var out := Procesar(model, input, outputName, timestamp).result.output;
            var cats, flags := RowCategories(model, input, col), UrgencyFlags(input, col);
            && out.name == OutputName(outputName, timestamp)
            && Rectangular(out.contents) && |out.contents.rows| == |input.rows|
            && "categoria" in out.contents.columns && "urgente" in out.contents.columns
            && input.columns <= out.contents.columns
            && out.contents.columns == WithColumn(WithColumn(input.columns, "categoria"), "urgente")
            && (forall i :: 0 <= i < |input.rows| ==>
                  && out.contents.rows[i][IndexOf(out.contents.columns, "categoria")] == Str(Name(cats[i]))
                  && out.contents.rows[i][IndexOf(out.contents.columns, "urgente")] == Bool(flags[i]))
            && (forall i, j ::
                  (0 <= i < |input.rows| && 0 <= j < |input.columns| &&
                   input.columns[j] != "categoria" && input.columns[j] != "urgente") ==>
                  out.contents.rows[i][j] == input.rows[i][j])
  {
    DescriptionColumnSpec(input.columns);
    AssembleRows(input, col, RowCategories(model, input, col), UrgencyFlags(input, col), outputName, timestamp);
  }

  /** The urgent file holds exactly the flagged rows of the result, in their order; it is absent
      exactly when no row is flagged (`RowDecisions` says which rows are), and the count is
      the number of flagged rows. */
  lemma ProcesarUrgent(model: Classifier, input: Table, outputName: Option<string>, timestamp: string, col: nat)
    requires Rectangular(input) && DescriptionColumn(input.columns) == Some(col)
    ensures var r := Procesar(model, input, outputName, timestamp).result;
            var flags := UrgencyFlags(input, col);
            && r.total == |input.rows|
            && r.urgentCount == |TrueIndices(flags)|
            && (r.urgent.None? <==> forall i :: 0 <= i < |flags| ==> !flags[i])
            && (r.urgent.Some? ==>
                  && r.urgent.value.name == UrgentName(timestamp)
                  && r.urgent.value.contents.columns == r.output.contents.columns
                  && |r.urgent.value.contents.rows| == |TrueIndices(flags)|
                  && forall m :: 0 <= m < |TrueIndices(flags)| ==>
                       r.urgent.value.contents.rows[m] == r.output.contents.rows[TrueIndices(flags)[m]])
  {
    DescriptionColumnSpec(input.columns);
    AssembleUrgent(input, col, RowCategories(model, input, col), UrgencyFlags(input, col), outputName, timestamp);
  }

  /** The duplicate count is the number of rows whose description repeats an earlier row's. */
  lemma ProcesarDuplicates(model: Classifier, input: Table, outputName: Option<string>, timestamp: string, col: nat)
    requires Rectangular(input) && DescriptionColumn(input.columns) == Some(col)
    ensures var r := Procesar(model, input, outputName, timestamp).result;
            r.duplicates == |input.rows| - |Distinct(ColumnValues(input, col))|
  {
    DuplicatesSpec(ColumnValues(input, col));
  }

  /** The header loop of `procesar_tickets`: the first column whose stripped, lower-cased name is "descripcion". */
  method FindDescriptionColumn(columns: seq<string>) returns (r: Option<nat>)
    ensures r == DescriptionColumn(columns)
  {
    var keys := HeaderKeys(columns);
    var col := 0;
    while col < |keys|
      invariant 0 <= col <= |keys|
      invariant forall j :: 0 <= j < col ==> keys[j] != "descripcion"
    {
      if keys[col] == "descripcion" {
        IndexOfFirst(keys, "descripcion", col);
        return Some(col);
      }
      col := col + 1;
    }
    IndexOfFirst(keys, "descripcion", col);
    return None;
  }

  /** The position of a name is the first position holding it. */
  lemma IndexOfFirst(columns: seq<string>, name: string, k: nat)
    requires k <= |columns| && (k < |columns| ==> columns[k] == name)
    requires forall j :: 0 <= j < k ==> columns[j] != name
    ensures IndexOf(columns, name) == k
  {
  }

  /** The row loop of `procesar_tickets`: `str()` of every cell of the description column, then the
      category and the urgency of that text, appended in row order. The two decisions are passed
      in as functions (`clasificar_texto` with the loaded model, and `es_urgente`). */
  method ClasificarFilas(classify: string -> Category, urgent: string -> bool, column: seq<Value>)
    returns (categorias: seq<Category>, urgencias: seq<bool>)
    ensures categorias == MapSeq(classify, Descriptions(column))
    ensures urgencias == MapSeq(urgent, Descriptions(column))
  {
    ghost var texts := Descriptions(column);
    categorias, urgencias := [], [];
    var i := 0;
    while i < |column|
      invariant 0 <= i <= |column|
      invariant |categorias| == i && forall k :: 0 <= k < i ==> categorias[k] == classify(texts[k])
      invariant |urgencias| == i && forall k :: 0 <= k < i ==> urgencias[k] == urgent(texts[k])
    {
      var descripcion := Render(column[i]);
      categorias := categorias + [classify(descripcion)];
      urgencias := urgencias + [urgent(descripcion)];
      i := i + 1;
    }
  }

  /** `procesar_tickets`: find the description column, run the row loop, assemble the results. */
  method ProcesarTickets(model: Classifier, input: Table, outputName: Option<string>, timestamp: string)
    returns (r: BatchOutcome)
    requires Rectangular(input)
    ensures r == Procesar(model, input, outputName, timestamp)
  {
    var found := FindDescriptionColumn(input.columns);
    if found.None? {
      return SchemaError(MissingColumnMessage);
    }
    var col := found.value;
    var categorias, urgencias := ClasificarFilas(Classify(model), EsUrgente, ColumnValues(input, col));
    r := Assemble(input, col, categorias, urgencias, outputName, timestamp);
  }
  /** The header "descripcion" is already normal: its key is itself. */
  lemma DescripcionIsItsOwnKey()
    ensures HeaderKey("descripcion") == "descripcion"
  {
    var d := "descripcion";
    assert forall i :: 0 <= i < |d| ==> !IsUpper(d[i]) && !IsSpace(d[i]);
    KeyOfNormalHeader(d);
  }

  /** A header whose column `k` is the first to normalize to "descripcion" has its descriptions there. */
  lemma DescriptionAt(columns: seq<string>, k: nat)
    requires k < |columns| && HeaderKey(columns[k]) == "descripcion"
    requires forall j :: 0 <= j < k ==> HeaderKey(columns[j]) != "descripcion"
    ensures DescriptionColumn(columns) == Some(k)
  {
    IndexOfFirst(HeaderKeys(columns), "descripcion", k);
  }

  /** "id" is too short to normalize to "descripcion". */
  lemma IdIsNotDescription()
    ensures HeaderKey("id") != "descripcion"
  {
    HeaderKeyLength("id");
  }

  /** The header of the end-to-end file, "id,descripcion": the descriptions are in column 1. */
  lemma IdDescripcionHeader()
    ensures DescriptionColumn(["id", "descripcion"]) == Some(1)
  {
    IdIsNotDescription();
    DescripcionIsItsOwnKey();
    DescriptionAt(["id", "descripcion"], 1);
  }

  /** The four tickets of the end-to-end file, under its header "id,descripcion". */
  function EndToEndTable(): (t: Table)
    ensures Rectangular(t) && |t.rows| == 4 && t.columns == ["id", "descripcion"]
    ensures t.rows[3][1] == Str("¡Es urgente!")
  {
    Table(["id", "descripcion"],
          [[Str("1"), Str("Mi pedido no llegó")], [Str("2"), Str("Error en mi pago")],
           [Str("3"), Str("Consulta general")], [Str("4"), Str("¡Es urgente!")]])
  }

  /** The end-to-end file of four tickets: four rows, both result columns, the default name, and
      an urgent file because "¡Es urgente!" is urgent. */
  lemma EndToEndCounts(model: Classifier, timestamp: string)
    ensures var r := Procesar(model, EndToEndTable(), None, timestamp);
            && r.Done? && r.result.total == 4
            && "categoria" in r.result.output.contents.columns && "urgente" in r.result.output.contents.columns
            && r.result.output.name == DefaultOutputName(timestamp)
            && r.result.urgentCount > 0 && r.result.urgent.Some?
  {
    var input := EndToEndTable();
    IdDescripcionHeader();
    ProcesarRows(model, input, None, timestamp, 1);
    ProcesarUrgent(model, input, None, timestamp, 1);
    var flags := UrgencyFlags(input, 1);
    assert flags[3] by {
      RowDecisions(model, input, 1);
      EsUrgenteExample();
    }
    assert 3 in TrueIndices(flags);
  }

  /** The six tickets of the unit test of the batch pipeline, under the single header "descripcion". */
  function UnitTestTable(): (t: Table)
    ensures Rectangular(t) && |t.rows| == 6 && t.columns == ["descripcion"]
    ensures t.rows[1][0] == Str("Error en mi pago")
  {
    Table(["descripcion"],
          [[Str("Mi pedido no llegó")], [Str("Error en mi pago")], [Str("Pantalla rota")],
           [Str("No puedo acceder a mi cuenta")], [Str("Factura con impuestos incorrectos")],
           [Str("Consulta general")]])
  }

  /** The unit-test file of six tickets: six rows, both result columns, and an urgent file because
      "Error en mi pago" is urgent. */
  lemma UnitTestCounts(model: Classifier, timestamp: string)
    ensures var r := Procesar(model, UnitTestTable(), None, timestamp);
            && r.Done? && r.result.total == 6
            && "categoria" in r.result.output.contents.columns && "urgente" in r.result.output.contents.columns
            && r.result.urgentCount > 0 && r.result.urgent.Some?
  {
    var input := UnitTestTable();
    DescripcionIsItsOwnKey();
    DescriptionAt(["descripcion"], 0);
    ProcesarRows(model, input, None, timestamp, 0);
    ProcesarUrgent(model, input, None, timestamp, 0);
    var flags := UrgencyFlags(input, 0);
    assert flags[1] by {
      RowDecisions(model, input, 0);
      ErrorEnMiPagoIsUrgent();
    }
    assert 1 in TrueIndices(flags);
  }
}
