/**
  The extract work the three samples do once `--build` is given: the schema each
  table is created with (CreateOrOpenExtract / createOrOpenExtract / CreateExtract)
  and the rows written into it (PopulateExtract / populateExtract).

  The three samples issue the same sequence of library calls; they differ only in
  the name of the optional spatial column ("Spatial" in C, "Destination" in Java
  and C++), which is a parameter here.
*/
module Workflow {
  import opened Wrappers
  import opened ExtractLib

  const SuppliersTable := "Suppliers"

  /** The main table is "Products" in a multi-table extract and "Extract" otherwise. */
  function MainTableName(multi: bool): string
  {
    if multi then "Products" else "Extract"
  }

  /** The column SupplierKey is written to: right after the optional spatial column. */
  function SupplierKeyIndex(useSpatial: bool): nat
  {
    if useSpatial then 9 else 8
  }

  /** The number of columns of the main table created under the two flags. */
  function Width(useSpatial: bool, multi: bool): nat
  {
    8 + (if useSpatial then 1 else 0) + (if multi then 1 else 0)
  }

  /** The eight columns every main table starts with. */
  function FixedColumns(): seq<Column>
  {
    [ Column("Purchased", DateTime, Binary),
      Column("Product", CharString, Binary),
      Column("uProduct", UnicodeString, Binary),
      Column("Price", Double, Binary),
      Column("Quantity", Integer, Binary),
      Column("Taxed", Boolean, Binary),
      Column("Expiration Date", Date, Binary),
      Column("Produkt", CharString, German) ]
  }

  /** The definition the main table is created with. */
  function ProductsLayout(spatialName: string, useSpatial: bool, multi: bool): (columns: seq<Column>)
    ensures |columns| == Width(useSpatial, multi) && columns[..8] == FixedColumns()
    ensures useSpatial <==> columns[8..] != [] && columns[8].ty == Spatial
    ensures multi <==> Accepts(columns, SupplierKeyIndex(useSpatial), Integer)
    ensures PreambleAccepted(columns, useSpatial) && LoopAccepted(columns, useSpatial, multi)
  {
    FixedColumns()
    + (if useSpatial then [Column(spatialName, Spatial, Binary)] else [])
    + (if multi then [Column("SupplierKey", Integer, Binary)] else [])
  }

  /** The definition the Suppliers table is created with. */
  function SuppliersLayout(): (columns: seq<Column>)
    ensures |columns| == 3 && SuppliersAccepted(columns)
  {
    [ Column("SupplierKey", Integer, Binary),
      Column("Supplier", CharString, Binary),
      Column("Address", CharString, Binary) ]
  }

  /** The setters called once on the main table's row, before its insert loop, are
      all accepted: Purchased at 0, Product at 1, uProduct at 2, Price at 3,
      Expiration Date at 6, Produkt at 7 and, with spatial data, the spatial value at 8. */
  predicate PreambleAccepted(columns: seq<Column>, useSpatial: bool)
  {
    && Accepts(columns, 0, DateTime) && Accepts(columns, 1, CharString)
    && Accepts(columns, 2, UnicodeString) && Accepts(columns, 3, Double)
    && Accepts(columns, 6, Date) && Accepts(columns, 7, CharString)
    && (useSpatial ==> Accepts(columns, 8, Spatial))
  }

  /** The setters called in every iteration of the main insert loop are all accepted:
      Quantity at 4, Taxed at 5 and, in multi-table mode, SupplierKey after the spatial slot. */
  predicate LoopAccepted(columns: seq<Column>, useSpatial: bool, multi: bool)
  {
    && Accepts(columns, 4, Integer) && Accepts(columns, 5, Boolean)
    && (multi ==> Accepts(columns, SupplierKeyIndex(useSpatial), Integer))
  }

  /** The setters called on the Suppliers row are all accepted: Supplier at 1,
      Address at 2, SupplierKey at 0. */
  predicate SuppliersAccepted(columns: seq<Column>)
  {
    Accepts(columns, 1, CharString) && Accepts(columns, 2, CharString) && Accepts(columns, 0, Integer)
  }

  // ---------------------------------------------------------------------------
  //  The rows populate writes
  // ---------------------------------------------------------------------------

  /** The main row after the setters that precede the insert loop. */
  function Preamble(width: nat, useSpatial: bool): (cells: seq<Value>)
    requires width >= 8 + (if useSpatial then 1 else 0)
    ensures |cells| == width
  {
    var base := Blank(width)[0 := DateTimeValue(2012, 7, 3, 11, 40, 12, 4550)][1 := CharStringValue("Beans")]
                            [2 := UnicodeValue("uniBeans")][3 := DoubleValue("1.08")]
                            [6 := DateValue(2029, 1, 1)][7 := CharStringValue("Bohnen")];
    if useSpatial then base[8 := SpatialValue("POINT (30 10)")] else base
  }

  /** The cells the setters of iteration `i` of the main insert loop overwrite. */
  function LoopFields(cells: seq<Value>, useSpatial: bool, multi: bool, i: int): (r: seq<Value>)
    requires |cells| > 5 && (multi ==> |cells| > SupplierKeyIndex(useSpatial))
    ensures |r| == |cells|
  {
    var r := cells[4 := IntegerValue(i * 10)][5 := BooleanValue(i % 2 == 1)];
    if multi then r[SupplierKeyIndex(useSpatial) := IntegerValue(i % 3)] else r
  }

  /** The snapshot inserted in iteration `i` of the main insert loop. */
  function MainRow(width: nat, useSpatial: bool, multi: bool, i: int): (cells: seq<Value>)
    requires width >= Width(useSpatial, multi)
    ensures |cells| == width
  {
    LoopFields(Preamble(width, useSpatial), useSpatial, multi, i)
  }

  /** The row is reused: iteration `i` overwrites every cell iteration `i - 1` wrote. */
  lemma RefillMainRow(width: nat, useSpatial: bool, multi: bool, i: int, before: seq<Value>)
    requires width >= Width(useSpatial, multi)
    requires before == (if i == 0 then Preamble(width, useSpatial) else MainRow(width, useSpatial, multi, i - 1))
    ensures LoopFields(before, useSpatial, multi, i) == MainRow(width, useSpatial, multi, i)
  {
  }

  function MainRows(width: nat, useSpatial: bool, multi: bool): seq<seq<Value>>
    requires width >= Width(useSpatial, multi)
  {
    seq(10, i => MainRow(width, useSpatial, multi, i))
  }

  /** The snapshot inserted in iteration `i` of the Suppliers insert loop. */
  function SupplierRow(width: nat, i: int): (cells: seq<Value>)
    requires width >= 3
    ensures |cells| == width
  {
    Blank(width)[1 := CharStringValue("Bean Supplier")][2 := CharStringValue("42 Bean Street, Beantown")]
                [0 := IntegerValue(i)]
  }

  function SupplierRows(width: nat): seq<seq<Value>>
    requires width >= 3
  {
    seq(3, i => SupplierRow(width, i))
  }

  // ---------------------------------------------------------------------------
  //  Specification of the two phases
  // ---------------------------------------------------------------------------

  /** The tables after create-or-open: a missing main table, and in multi-table
      mode a missing Suppliers table, are added empty; existing ones are kept. */
  function CreatedOrOpened(t: Tables, spatialName: string, useSpatial: bool, multi: bool): (r: Tables)
    ensures r.Keys == t.Keys + {MainTableName(multi)} + (if multi then {SuppliersTable} else {})
    ensures forall n :: n in t ==> r[n] == t[n]
    ensures MainTableName(multi) !in t ==> r[MainTableName(multi)] == TableData(ProductsLayout(spatialName, useSpatial, multi), [])
    ensures multi && SuppliersTable !in t ==> r[SuppliersTable] == TableData(SuppliersLayout(), [])
  {
    var t1 := WithTable(t, MainTableName(multi), TableData(ProductsLayout(spatialName, useSpatial, multi), []));
    if multi then WithTable(t1, SuppliersTable, TableData(SuppliersLayout(), [])) else t1
  }

  /** `t` with table `name` added as `d` when it is missing. */
  function WithTable(t: Tables, name: string, d: TableData): (r: Tables)
    ensures r.Keys == t.Keys + {name}
    ensures forall n :: n in t ==> r[n] == t[n]
    ensures name !in t ==> r[name] == d
  {
    if name in t then t else t[name := d]
  }

  /** The main-table block runs to the end: its table exists and accepts every setter called on it. */
  predicate MainSucceeds(t: Tables, useSpatial: bool, multi: bool)
  {
    && MainTableName(multi) in t
    && PreambleAccepted(t[MainTableName(multi)].columns, useSpatial)
    && LoopAccepted(t[MainTableName(multi)].columns, useSpatial, multi)
  }

  /** The Suppliers block runs to the end. */
  predicate SuppliersSucceeds(t: Tables)
  {
    SuppliersTable in t && SuppliersAccepted(t[SuppliersTable].columns)
  }

  /** Populate runs to the end: the tables it opens exist and accept every setter it calls. */
  predicate PopulateSucceeds(t: Tables, useSpatial: bool, multi: bool)
  {
    MainSucceeds(t, useSpatial, multi) && (multi ==> SuppliersSucceeds(t))
  }

  /** The tables after the main-table block: ten snapshots appended to the main table. */
  function PopulatedMain(t: Tables, useSpatial: bool, multi: bool): Tables
    requires MainSucceeds(t, useSpatial, multi)
  {
    var name := MainTableName(multi);
    var main := t[name];
    t[name := main.(rows := main.rows + MainRows(|main.columns|, useSpatial, multi))]
  }

  /** The tables after the Suppliers block: three snapshots appended to Suppliers. */
  function PopulatedSuppliers(t: Tables): Tables
    requires SuppliersSucceeds(t)
  {
    var suppliers := t[SuppliersTable];
    t[SuppliersTable := suppliers.(rows := suppliers.rows + SupplierRows(|suppliers.columns|))]
  }

  /** The tables after a populate that ran to the end. */
  function Populated(t: Tables, useSpatial: bool, multi: bool): Tables
    requires PopulateSucceeds(t, useSpatial, multi)
  {
    var t1 := PopulatedMain(t, useSpatial, multi);
    if multi then PopulatedSuppliers(t1) else t1
  }

  /** The extract after create-or-open and populate, or None when populate aborts. */
  function Build(existing: Tables, spatialName: string, useSpatial: bool, multi: bool): (r: Option<Tables>)
    ensures r.Some? ==> r.value.Keys == existing.Keys + {MainTableName(multi)} + (if multi then {SuppliersTable} else {})
    ensures r.Some? ==>
      forall n :: n in existing && n != MainTableName(multi) && n != SuppliersTable ==> r.value[n] == existing[n]
  {
    var t := CreatedOrOpened(existing, spatialName, useSpatial, multi);
    if PopulateSucceeds(t, useSpatial, multi) then Some(Populated(t, useSpatial, multi)) else None
  }

  /** What a sample run ends in. */
  datatype Outcome =
    | ShowUsage   // parse failure or help: usage printed, exit status 0
    | NoWork      // parsed, but no --build: exit status 0
    | Built       // extract created or extended and closed: exit status 0
    | Aborted     // a library call failed: diagnostic printed, failure exit status

  /** What main does once the command line is parsed (None: show the usage text). */
  datatype Request = Request(build: bool, spatial: bool, multi: bool, filename: string)

  /** How a run ends: its outcome, the process exit status and the working directory. */
  datatype Exit = Exit(outcome: Outcome, status: int, disk: Disk)

  /** The dispatch of main, shared by the three samples. A run writes at most the one
      file it names, writes it only when it reaches close, and exits non-zero exactly
      when it aborts. */
  function Dispatch(request: Option<Request>, disk: Disk, spatialName: string, failureStatus: int): (r: Exit)
    requires failureStatus != 0
    ensures r.status == 0 <==> r.outcome != Aborted
    ensures r.outcome == ShowUsage <==> request.None?
    ensures r.outcome == NoWork <==> request.Some? && !request.value.build
    ensures r.outcome != Built ==> r.disk == disk
    ensures r.outcome == Built ==>
      && r.disk.Keys == disk.Keys + {request.value.filename}
      && forall f :: f in disk && f != request.value.filename ==> r.disk[f] == disk[f]
  {
    match request
    case None => Exit(ShowUsage, 0, disk)
    case Some(q) =>
      if !q.build then Exit(NoWork, 0, disk)
      else BuildOutcome(disk, q.filename, spatialName, q.spatial, q.multi, failureStatus)
  }

  /** The --build branch of main: the extract built from what is stored under `filename`
      is written back there, or the run aborts with `failureStatus` and writes nothing. */
  function BuildOutcome(disk: Disk, filename: string, spatialName: string, useSpatial: bool, multi: bool,
                        failureStatus: int): (r: Exit)
    requires failureStatus != 0
    ensures r.outcome == Built || r.outcome == Aborted
    ensures r.status == 0 <==> r.outcome == Built
    ensures r.outcome == Aborted ==> r.disk == disk
    ensures r.outcome == Built ==>
      && r.disk.Keys == disk.Keys + {filename}
      && forall f :: f in disk && f != filename ==> r.disk[f] == disk[f]
  {
    var b := Build(Existing(disk, filename), spatialName, useSpatial, multi);
    if b.Some? then Exit(Built, 0, Stored(disk, filename, b.value)) else Exit(Aborted, failureStatus, disk)
  }

  /** The working directory after closing the extract `t` under `filename`. */
  function Stored(disk: Disk, filename: string, t: Tables): (r: Disk)
    ensures r.Keys == disk.Keys + {filename}
    ensures filename in r && r[filename] == t
    ensures forall f :: f in disk && f != filename ==> r[f] == disk[f]
  {
    disk[filename := t]
  }

  // ---------------------------------------------------------------------------
  //  The two phases as the samples run them
  // ---------------------------------------------------------------------------

  method CreateOrOpenExtract(ex: Extract, spatialName: string, useSpatial: bool, multi: bool)
    modifies ex
    ensures ex.tables == CreatedOrOpened(old(ex.tables), spatialName, useSpatial, multi)
  {
    CreateMainTable(ex, spatialName, useSpatial, multi);
    if multi {
      CreateSuppliersTable(ex);
    }
  }

  /** The main-table block: define and add the table when the extract lacks it. */
  method CreateMainTable(ex: Extract, spatialName: string, useSpatial: bool, multi: bool)
    modifies ex
    ensures ex.tables == WithTable(old(ex.tables), MainTableName(multi), TableData(ProductsLayout(spatialName, useSpatial, multi), []))
  {
    var name := MainTableName(multi);
    if !ex.HasTable(name) {
      var schema := DefineMainTable(spatialName, useSpatial, multi);
      var added := ex.AddTable(name, schema);
      assert added;
    }
  }

  /** The Suppliers block: define and add the table when the extract lacks it. */
  method CreateSuppliersTable(ex: Extract)
    modifies ex
    ensures ex.tables == WithTable(old(ex.tables), SuppliersTable, TableData(SuppliersLayout(), []))
  {
    if !ex.HasTable(SuppliersTable) {
      var schema := DefineSuppliersTable();
      var added := ex.AddTable(SuppliersTable, schema);
      assert added;
    }
  }

  /** The schema of the main table, built column by column. */
  method DefineMainTable(spatialName: string, useSpatial: bool, multi: bool) returns (schema: TableDefinition)
    ensures fresh(schema) && schema.columns == ProductsLayout(spatialName, useSpatial, multi)
  {
    schema := new TableDefinition();
    schema.SetDefaultCollation(Binary);
    schema.AddColumn("Purchased", DateTime);
    schema.AddColumn("Product", CharString);
    schema.AddColumn("uProduct", UnicodeString);
    schema.AddColumn("Price", Double);
    schema.AddColumn("Quantity", Integer);
    schema.AddColumn("Taxed", Boolean);
    schema.AddColumn("Expiration Date", Date);
    schema.AddColumnWithCollation("Produkt", CharString, German);
    assert schema.columns == FixedColumns();
    if useSpatial {
      schema.AddColumn(spatialName, Spatial);
    }
    if multi {
      schema.AddColumn("SupplierKey", Integer);
    }
  }

  /** The schema of the Suppliers table; no default collation is set on it. */
  method DefineSuppliersTable() returns (schema: TableDefinition)
    ensures fresh(schema) && schema.columns == SuppliersLayout()
  {
    schema := new TableDefinition();
    schema.AddColumn("SupplierKey", Integer);
    schema.AddColumn("Supplier", CharString);
    schema.AddColumn("Address", CharString);
  }

  /** Writes the sample rows; `ok` is false where the sample would stop with a fatal error. */
  method PopulateExtract(ex: Extract, useSpatial: bool, multi: bool) returns (ok: bool)
    modifies ex
    ensures ok == PopulateSucceeds(old(ex.tables), useSpatial, multi)
    ensures ok ==> ex.tables == Populated(old(ex.tables), useSpatial, multi)
  {
    ok := PopulateMainTable(ex, useSpatial, multi);
    if !ok || !multi {
      return;
    }
    ok := PopulateSuppliersTable(ex);
  }

  /** The `Extract`/`Products` block of populate. */
  method PopulateMainTable(ex: Extract, useSpatial: bool, multi: bool) returns (ok: bool)
    modifies ex
    ensures ok == MainSucceeds(old(ex.tables), useSpatial, multi)
    ensures ok ==> ex.tables == PopulatedMain(old(ex.tables), useSpatial, multi)
  {
    var name := MainTableName(multi);
    if !ex.HasTable(name) {
      return false;
    }
    var columns := ex.tables[name].columns;
    var row := new Row(columns);
    ok := SetPreamble(row, useSpatial);
    if !ok {
      return;
    }
    ok := InsertMainRows(ex, name, row, useSpatial, multi);
  }

  /** The insert loop of the main-table block: the reused row gets this iteration's
      setters and a snapshot of it is appended, ten times. */
  method InsertMainRows(ex: Extract, name: string, row: Row, useSpatial: bool, multi: bool) returns (ok: bool)
    requires name in ex.tables && row.Valid() && row.columns == ex.tables[name].columns
    requires |row.columns| >= 8 + (if useSpatial then 1 else 0)
    requires row.cells == Preamble(|row.columns|, useSpatial)
    modifies ex, row
    ensures ok == LoopAccepted(row.columns, useSpatial, multi)
    ensures ok ==> |row.columns| >= Width(useSpatial, multi)
    ensures ok ==> ex.tables == old(ex.tables)[name := TableData(row.columns,
                                 old(ex.tables)[name].rows + MainRows(|row.columns|, useSpatial, multi))]
  {
    ghost var columns := row.columns;
    ghost var t0 := ex.tables;
    ghost var rows := t0[name].rows;
    ghost var written: seq<seq<Value>> := [];
    assert rows + written == rows;
    assert t0[name] == TableData(columns, rows);
    assert t0 == t0[name := TableData(columns, rows + written)];
    var i := 0;
    while i < 10
      invariant 0 <= i <= 10
      invariant row.Valid() && row.columns == columns
      invariant ex.tables == t0[name := TableData(columns, rows + written)]
      invariant i == 0 ==> row.cells == Preamble(|columns|, useSpatial)
      invariant i > 0 ==> LoopAccepted(columns, useSpatial, multi)
      invariant i > 0 ==> row.cells == MainRow(|columns|, useSpatial, multi, i - 1)
      invariant i > 0 ==> written == MainRows(|columns|, useSpatial, multi)[..i]
      invariant i == 0 ==> written == []
    {
      ghost var before := row.cells;
      ok := SetLoopFields(row, useSpatial, multi, i);
      if !ok {
        return;
      }
      RefillMainRow(|columns|, useSpatial, multi, i, before);
      var inserted := ex.Insert(name, row);
      assert inserted;
      assert rows + written + [row.cells] == rows + (written + [row.cells]);
      written := written + [row.cells];
      assert written == MainRows(|columns|, useSpatial, multi)[..i + 1];
      i := i + 1;
    }
    assert written == MainRows(|columns|, useSpatial, multi);
    ok := true;
  }

  /** The setters called once, before the insert loop. */
  method SetPreamble(row: Row, useSpatial: bool) returns (ok: bool)
    requires row.Valid() && row.cells == Blank(|row.columns|)
    modifies row
    ensures row.Valid()
    ensures ok == PreambleAccepted(row.columns, useSpatial)
    ensures ok ==> |row.columns| >= 8 + (if useSpatial then 1 else 0)
    ensures ok ==> row.cells == Preamble(|row.columns|, useSpatial)
  {
    ok := row.Set(0, DateTimeValue(2012, 7, 3, 11, 40, 12, 4550));
    if !ok { return; }
    ok := row.Set(1, CharStringValue("Beans"));
    if !ok { return; }
    ok := row.Set(2, UnicodeValue("uniBeans"));
    if !ok { return; }
    ok := row.Set(3, DoubleValue("1.08"));
    if !ok { return; }
    ok := row.Set(6, DateValue(2029, 1, 1));
    if !ok { return; }
    ok := row.Set(7, CharStringValue("Bohnen"));
    if !ok { return; }
    if useSpatial {
      ok := row.Set(8, SpatialValue("POINT (30 10)"));
    }
  }

  /** The setters called in every iteration of the insert loop. */
  method SetLoopFields(row: Row, useSpatial: bool, multi: bool, i: int) returns (ok: bool)
    requires row.Valid()
    modifies row
    ensures row.Valid()
    ensures ok == LoopAccepted(row.columns, useSpatial, multi)
    ensures ok ==> row.cells == LoopFields(old(row.cells), useSpatial, multi, i)
  {
    ok := row.Set(4, IntegerValue(i * 10));
    if !ok { return; }
    ok := row.Set(5, BooleanValue(i % 2 == 1));
    if !ok { return; }
    if multi {
      ok := row.Set(SupplierKeyIndex(useSpatial), IntegerValue(i % 3));
    }
  }

  /** The `Suppliers` block of populate, run in multi-table mode only. */
  method PopulateSuppliersTable(ex: Extract) returns (ok: bool)
    modifies ex
    ensures ok == SuppliersSucceeds(old(ex.tables))
    ensures ok ==> ex.tables == PopulatedSuppliers(old(ex.tables))
  {
    if !ex.HasTable(SuppliersTable) {
      return false;
    }
    var columns := ex.tables[SuppliersTable].columns;
    var row := new Row(columns);
    ok := row.Set(1, CharStringValue("Bean Supplier"));
    if !ok { return; }
    ok := row.Set(2, CharStringValue("42 Bean Street, Beantown"));
    if !ok { return; }
    ghost var t0 := ex.tables;
    ghost var rows := t0[SuppliersTable].rows;
    ghost var written: seq<seq<Value>> := [];
    assert rows + written == rows;
    assert t0[SuppliersTable] == TableData(columns, rows);
    assert t0 == t0[SuppliersTable := TableData(columns, rows + written)];
    var i := 0;
    while i < 3
      invariant 0 <= i <= 3
      invariant row.Valid() && row.columns == columns
      invariant ex.tables == t0[SuppliersTable := TableData(columns, rows + written)]
      invariant i == 0 ==> written == []
      invariant i == 0 ==> row.cells == Blank(|columns|)[1 := CharStringValue("Bean Supplier")][2 := CharStringValue("42 Bean Street, Beantown")]
      invariant i > 0 ==> SuppliersAccepted(columns) && row.cells == SupplierRow(|columns|, i - 1)
      invariant i > 0 ==> written == SupplierRows(|columns|)[..i]
    {
      ok := row.Set(0, IntegerValue(i));
      if !ok { return; }
      assert row.cells == SupplierRow(|columns|, i);
      var inserted := ex.Insert(SuppliersTable, row);
      assert inserted;
      assert rows + written + [row.cells] == rows + (written + [row.cells]);
      written := written + [row.cells];
      assert written == SupplierRows(|columns|)[..i + 1];
      i := i + 1;
    }
    assert written == SupplierRows(|columns|);
    ok := true;
  }

  /** Create-or-open, populate and close the extract stored at `filename`. When
      populate aborts the process exits before closing, so nothing is written. */
  method BuildExtract(disk: Disk, filename: string, spatialName: string, useSpatial: bool, multi: bool,
                      failureStatus: int) returns (exit: Exit)
    requires failureStatus != 0
    ensures exit == BuildOutcome(disk, filename, spatialName, useSpatial, multi, failureStatus)
  {
    var ex := new Extract.Open(Existing(disk, filename));
    CreateOrOpenExtract(ex, spatialName, useSpatial, multi);
    var ok := PopulateExtract(ex, useSpatial, multi);
    if !ok {
      return Exit(Aborted, failureStatus, disk);
    }
    var flushed := ex.Close();
    exit := Exit(Built, 0, Stored(disk, filename, flushed));
  }


  // ---------------------------------------------------------------------------
  //  Properties of a build
  // ---------------------------------------------------------------------------

  /** Every stored row is sized to its table's definition and typed column by column. */
  ghost predicate RowsConform(t: Tables)
  {
    forall n, k :: n in t && 0 <= k < |t[n].rows| ==> Conforms(t[n].columns, t[n].rows[k])
  }

  /** Opening an extract a second time with the same flags creates nothing more. */
  lemma CreateOrOpenIdempotent(t: Tables, spatialName: string, useSpatial: bool, multi: bool)
    ensures var once := CreatedOrOpened(t, spatialName, useSpatial, multi);
      CreatedOrOpened(once, spatialName, useSpatial, multi) == once
  {
    var once := CreatedOrOpened(t, spatialName, useSpatial, multi);
    var twice := CreatedOrOpened(once, spatialName, useSpatial, multi);
    assert twice.Keys == once.Keys;
    assert forall n :: n in once ==> twice[n] == once[n];
  }

  /** A main-table snapshot conforms to any definition that accepted its setters. */
  lemma MainRowConforms(columns: seq<Column>, useSpatial: bool, multi: bool, i: int)
    requires PreambleAccepted(columns, useSpatial) && LoopAccepted(columns, useSpatial, multi)
    ensures |columns| >= Width(useSpatial, multi)
    ensures Conforms(columns, MainRow(|columns|, useSpatial, multi, i))
  {
    var cells := MainRow(|columns|, useSpatial, multi, i);
    forall k | 0 <= k < |cells| && !cells[k].Null?
      ensures SetterType(cells[k]) == columns[k].ty
    {
      assert k in {0, 1, 2, 3, 4, 5, 6, 7} || (useSpatial && k == 8) || (multi && k == SupplierKeyIndex(useSpatial));
    }
  }

  /** A Suppliers snapshot conforms to any definition that accepted its setters. */
  lemma SupplierRowConforms(columns: seq<Column>, i: int)
    requires SuppliersAccepted(columns)
    ensures Conforms(columns, SupplierRow(|columns|, i))
  {
    var cells := SupplierRow(|columns|, i);
    forall k | 0 <= k < |cells| && !cells[k].Null?
      ensures SetterType(cells[k]) == columns[k].ty
    {
      assert k in {0, 1, 2};
    }
  }

  /** Populate keeps every table's rows conforming: it only appends rows its setters accepted. */
  lemma PopulateKeepsRowsConforming(t: Tables, useSpatial: bool, multi: bool)
    requires RowsConform(t) && PopulateSucceeds(t, useSpatial, multi)
    ensures RowsConform(Populated(t, useSpatial, multi))
  {
    var name := MainTableName(multi);
    var t1 := PopulatedMain(t, useSpatial, multi);
    var columns := t[name].columns;
    forall n, k | n in t1 && 0 <= k < |t1[n].rows|
      ensures Conforms(t1[n].columns, t1[n].rows[k])
    {
      if n == name && k >= |t[name].rows| {
        MainRowConforms(columns, useSpatial, multi, k - |t[name].rows|);
      }
    }
    if multi {
      var t2 := PopulatedSuppliers(t1);
      forall n, k | n in t2 && 0 <= k < |t2[n].rows|
        ensures Conforms(t2[n].columns, t2[n].rows[k])
      {
        if n == SuppliersTable && k >= |t1[SuppliersTable].rows| {
          SupplierRowConforms(t1[SuppliersTable].columns, k - |t1[SuppliersTable].rows|);
        }
      }
    }
  }

  /** A build keeps the extract's rows conforming to their definitions. */
  lemma BuildKeepsRowsConforming(existing: Tables, spatialName: string, useSpatial: bool, multi: bool)
    requires RowsConform(existing)
    ensures var r := Build(existing, spatialName, useSpatial, multi);
      r.Some? ==> RowsConform(r.value)
  {
    var t := CreatedOrOpened(existing, spatialName, useSpatial, multi);
    assert RowsConform(t);
    if PopulateSucceeds(t, useSpatial, multi) {
      PopulateKeepsRowsConforming(t, useSpatial, multi);
    }
  }

  /** Where the tables a build needs are all missing, it creates them and populate succeeds. */
  lemma MissingTablesBuildSucceeds(existing: Tables, spatialName: string, useSpatial: bool, multi: bool)
    requires MainTableName(multi) !in existing && (multi ==> SuppliersTable !in existing)
    ensures Build(existing, spatialName, useSpatial, multi).Some?
  {
    var t := CreatedOrOpened(existing, spatialName, useSpatial, multi);
    assert MainTableName(multi) != SuppliersTable;
    assert PopulateSucceeds(t, useSpatial, multi);
  }

  /** A build into a new file always runs to the end. */
  lemma FreshBuildSucceeds(spatialName: string, useSpatial: bool, multi: bool)
    ensures Build(map[], spatialName, useSpatial, multi).Some?
  {
    MissingTablesBuildSucceeds(map[], spatialName, useSpatial, multi);
  }

  /** A build into a new file writes exactly the sample's tables. */
  lemma FreshBuild(spatialName: string, useSpatial: bool, multi: bool)
    ensures var r := Build(map[], spatialName, useSpatial, multi);
      && r.Some?
      && r.value.Keys == {MainTableName(multi)} + (if multi then {SuppliersTable} else {})
      && r.value[MainTableName(multi)]
         == TableData(ProductsLayout(spatialName, useSpatial, multi), MainRows(Width(useSpatial, multi), useSpatial, multi))
      && (multi ==> r.value[SuppliersTable] == TableData(SuppliersLayout(), SupplierRows(3)))
  {
    FreshBuildSucceeds(spatialName, useSpatial, multi);
    assert MainTableName(multi) != SuppliersTable;
  }

  /** In a new multi-table extract, the SupplierKey of the i-th product row is the key of
      the (i mod 3)-th supplier row, so every product refers to an existing supplier. */
  lemma SupplierKeysResolve(spatialName: string, useSpatial: bool)
    ensures var r := Build(map[], spatialName, useSpatial, true);
      && r.Some?
      && var t := r.value;
      && |t["Products"].rows| == 10 && |t[SuppliersTable].rows| == 3
      && forall i :: 0 <= i < 10 ==>
           t["Products"].rows[i][SupplierKeyIndex(useSpatial)] == t[SuppliersTable].rows[i % 3][0]
  {
    FreshBuild(spatialName, useSpatial, true);
  }

  /** Rebuilding tables laid out by an earlier build in the same mode: populate succeeds
      unless -s is added, or is dropped while a SupplierKey follows the spatial column. */
  lemma SameModeRebuild(existing: Tables, spatialName: string, s0: bool, s1: bool, multi: bool)
    requires MainTableName(multi) in existing
    requires existing[MainTableName(multi)].columns == ProductsLayout(spatialName, s0, multi)
    requires multi ==> SuppliersTable in existing && existing[SuppliersTable].columns == SuppliersLayout()
    ensures Build(existing, spatialName, s1, multi).Some? <==> (s0 == s1 || (s0 && !multi))
  {
    var t := CreatedOrOpened(existing, spatialName, s1, multi);
    var layout0 := ProductsLayout(spatialName, s0, multi);
    assert t[MainTableName(multi)].columns == layout0;
    if s0 && !s1 && multi {
      assert !Accepts(layout0, 8, Integer);
    } else if !s0 && s1 {
      assert !Accepts(layout0, 8, Spatial);
    } else {
      assert PopulateSucceeds(t, s1, multi);
    }
  }

  /** Running a sample a second time on the file a first run created. The run succeeds
      exactly when it opens a table the first run did not create (the multi-table flag
      changed), or the spatial flag is unchanged, or a spatial single-table extract is
      extended without -s. In particular -s is NOT ignored when extending: a spatial
      column is required by -s, and in multi-table mode SupplierKey is looked for at
      the index that depends on -s. */
  lemma ExtendCompatibility(spatialName: string, s0: bool, m0: bool, s1: bool, m1: bool)
    ensures var first := Build(map[], spatialName, s0, m0);
      && first.Some?
      && (Build(first.value, spatialName, s1, m1).Some? <==> (m0 != m1 || s0 == s1 || (s0 && !m1)))
  {
    FreshBuild(spatialName, s0, m0);
    var first := Build(map[], spatialName, s0, m0).value;
    if m0 == m1 {
      SameModeRebuild(first, spatialName, s0, s1, m1);
    } else {
      MissingTablesBuildSucceeds(first, spatialName, s1, m1);
    }
  }


  /** A build request for a file that does not exist yet always gets through to close. */
  lemma NewFileIsBuilt(q: Request, disk: Disk, spatialName: string, failureStatus: int)
    requires failureStatus != 0 && q.build && q.filename !in disk
    ensures var r := Dispatch(Some(q), disk, spatialName, failureStatus);
      && r.outcome == Built
      && r.disk == disk[q.filename := Build(map[], spatialName, q.spatial, q.multi).value]
  {
    assert Existing(disk, q.filename) == map[];
    FreshBuildSucceeds(spatialName, q.spatial, q.multi);
  }

  /** Repeating a build request extends the file the first run created. With the
      multi-table flag changed it always succeeds; with it unchanged it aborts exactly
      when -s is added to an extract created without it, or -s is dropped in
      multi-table mode. */
  lemma RepeatedRequest(q0: Request, q1: Request, disk: Disk, spatialName: string, failureStatus: int)
    requires failureStatus != 0 && q0.build && q1.build && q0.filename !in disk && q1.filename == q0.filename
    ensures var first := Dispatch(Some(q0), disk, spatialName, failureStatus);
      && first.outcome == Built
      && (Dispatch(Some(q1), first.disk, spatialName, failureStatus).outcome == Built
          <==> (q0.multi != q1.multi || q0.spatial == q1.spatial || (q0.spatial && !q1.multi)))
  {
    var b0 := Build(map[], spatialName, q0.spatial, q0.multi);
    NewFileIsBuilt(q0, disk, spatialName, failureStatus);
    var first := Dispatch(Some(q0), disk, spatialName, failureStatus);
    assert Existing(first.disk, q1.filename) == b0.value;
    ExtendCompatibility(spatialName, q0.spatial, q0.multi, q1.spatial, q1.multi);
  }

  /** Runs keep every stored extract's rows conforming to their tables' definitions. */
  lemma DispatchKeepsRowsConforming(request: Option<Request>, disk: Disk, spatialName: string, failureStatus: int)
    requires failureStatus != 0
    requires forall f :: f in disk ==> RowsConform(disk[f])
    ensures var r := Dispatch(request, disk, spatialName, failureStatus);
      forall f :: f in r.disk ==> RowsConform(r.disk[f])
  {
    if request.Some? && request.value.build {
      var q := request.value;
      var existing := Existing(disk, q.filename);
      assert RowsConform(existing);
      BuildKeepsRowsConforming(existing, spatialName, q.spatial, q.multi);
      var r := Dispatch(request, disk, spatialName, failureStatus);
      forall f | f in r.disk
        ensures RowsConform(r.disk[f])
      {
        if f != q.filename {
          assert r.disk[f] == disk[f];
        }
      }
    }
  }

  /** The rows a populate that runs to the end appends: ten main rows whose Quantity is
      10 i, whose Taxed is true for odd i and whose SupplierKey (multi-table) is i mod 3,
      and three Suppliers rows with keys 0, 1 and 2. Nothing else changes. */
  lemma PopulatedRows(t: Tables, useSpatial: bool, multi: bool)
    requires PopulateSucceeds(t, useSpatial, multi)
    ensures var name, p := MainTableName(multi), Populated(t, useSpatial, multi);
      && p.Keys == t.Keys
      && (forall n :: n in t && n != name && (multi ==> n != SuppliersTable) ==> p[n] == t[n])
      && p[name].columns == t[name].columns
      && p[name].rows[..|t[name].rows|] == t[name].rows
      && |p[name].rows| == |t[name].rows| + 10
      && forall i :: 0 <= i < 10 ==>
           var row := p[name].rows[|t[name].rows| + i];
           && row == MainRow(|t[name].columns|, useSpatial, multi, i)
           && |row| == |t[name].columns|
           && row[4] == IntegerValue(i * 10)
           && row[5] == BooleanValue(i % 2 == 1)
           && (multi ==> row[SupplierKeyIndex(useSpatial)] == IntegerValue(i % 3))
  {
    var name := MainTableName(multi);
    assert multi ==> name != SuppliersTable;
    var t1 := PopulatedMain(t, useSpatial, multi);
    assert t1[name].rows[..|t[name].rows|] == t[name].rows;
  }

  /** The Suppliers rows a multi-table populate appends carry the keys 0, 1 and 2. */
  lemma PopulatedSupplierRows(t: Tables, useSpatial: bool)
    requires PopulateSucceeds(t, useSpatial, true)
    ensures var p := Populated(t, useSpatial, true);
      && p[SuppliersTable].rows[..|t[SuppliersTable].rows|] == t[SuppliersTable].rows
      && |p[SuppliersTable].rows| == |t[SuppliersTable].rows| + 3
      && forall i :: 0 <= i < 3 ==> p[SuppliersTable].rows[|t[SuppliersTable].rows| + i][0] == IntegerValue(i)
  {
    var t1 := PopulatedMain(t, useSpatial, true);
    assert "Products" != SuppliersTable;
    assert t1[SuppliersTable] == t[SuppliersTable];
  }
}

