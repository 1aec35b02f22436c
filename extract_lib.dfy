/**
  The slice of the extract library's interface that the samples call.

  The library is a closed binary, so everything in this module is an ASSUMED,
  minimal model of it, not a model of visible code:
  - a table definition is an ordered list of typed columns, built by appending;
  - a row is a sequence of cells sized to its definition, all cells null at first;
  - a setter succeeds exactly when its index is in range and the column has the
    setter's type, and otherwise changes nothing;
  - inserting a row appends a snapshot of its cells to the table;
  - an extract maps table names to tables and is written back only when closed.
*/
module ExtractLib {

  /** The column types the samples use (TAB_TYPE_* / Type.*). */
  datatype ColumnType =
    | DateTime
    | Date
    | CharString
    | UnicodeString
    | Double
    | Integer
    | Boolean
    | Spatial

  /** TAB_COLLATION_Binary and TAB_COLLATION_de, the two collations the samples name. */
  datatype Collation = Binary | German

  datatype Column = Column(name: string, ty: ColumnType, collation: Collation)

  /** A cell. Doubles are kept as the literal the sample writes: no floating point. */
  datatype Value =
    | Null
    | DateTimeValue(year: int, month: int, day: int, hour: int, minute: int, second: int, frac: int)
    | DateValue(year: int, month: int, day: int)
    | CharStringValue(bytes: string)
    | UnicodeValue(text: string)
    | DoubleValue(literal: string)
    | IntegerValue(n: int)
    | BooleanValue(b: bool)
    | SpatialValue(wkt: string)

  /** The column type of the setter that writes `v` (SetDateTime, SetCharString, SetString, ...). */
  function SetterType(v: Value): ColumnType
    requires !v.Null?
  {
    match v
    case DateTimeValue(_, _, _, _, _, _, _) => DateTime
    case DateValue(_, _, _) => Date
    case CharStringValue(_) => CharString
    case UnicodeValue(_) => UnicodeString
    case DoubleValue(_) => Double
    case IntegerValue(_) => Integer
    case BooleanValue(_) => Boolean
    case SpatialValue(_) => Spatial
  }

  /** A setter of type `ty` at `index` is accepted by a row of definition `columns`. */
  predicate Accepts(columns: seq<Column>, index: int, ty: ColumnType)
  {
    0 <= index < |columns| && columns[index].ty == ty
  }

  /** The cells are sized to the definition and every non-null cell has its column's type. */
  predicate Conforms(columns: seq<Column>, cells: seq<Value>)
  {
    |cells| == |columns| &&
    forall k :: 0 <= k < |cells| && !cells[k].Null? ==> SetterType(cells[k]) == columns[k].ty
  }

  /** A row as freshly created: every cell null. */
  function Blank(width: nat): (cells: seq<Value>)
    ensures |cells| == width && forall k :: 0 <= k < width ==> cells[k] == Null
  {
    seq(width, _ => Null)
  }

  /** A table: its definition and the snapshots inserted so far, oldest first. */
  datatype TableData = TableData(columns: seq<Column>, rows: seq<seq<Value>>)

  /** The content of one extract file: tables by name. */
  type Tables = map<string, TableData>

  /** The working directory: extract contents by file name. */
  type Disk = map<string, Tables>

  /** What create-or-open finds at `filename`: the stored extract, or an empty new one. */
  function Existing(disk: Disk, filename: string): Tables
  {
    if filename in disk then disk[filename] else map[]
  }

  class TableDefinition {
    var defaultCollation: Collation
    var columns: seq<Column>

    /** A fresh definition has no columns; its default collation is assumed Binary. */
    constructor ()
      ensures defaultCollation == Binary && columns == []
    {
      defaultCollation := Binary;
      columns := [];
    }

    method SetDefaultCollation(collation: Collation)
      modifies this
      ensures defaultCollation == collation && columns == old(columns)
    {
      defaultCollation := collation;
    }

    /** Appends a column that takes the current default collation. */
    method AddColumn(name: string, ty: ColumnType)
      modifies this
      ensures defaultCollation == old(defaultCollation)
      ensures columns == old(columns) + [Column(name, ty, old(defaultCollation))]
    {
      columns := columns + [Column(name, ty, defaultCollation)];
    }

    method AddColumnWithCollation(name: string, ty: ColumnType, collation: Collation)
      modifies this
      ensures defaultCollation == old(defaultCollation)
      ensures columns == old(columns) + [Column(name, ty, collation)]
    {
      columns := columns + [Column(name, ty, collation)];
    }
  }

  class Row {
    const columns: seq<Column>
    var cells: seq<Value>

    ghost predicate Valid()
      reads this
    {
      |cells| == |columns|
    }

    constructor (columns: seq<Column>)
      ensures Valid() && this.columns == columns && cells == Blank(|columns|)
    {
      this.columns := columns;
      cells := Blank(|columns|);
    }

    /** One typed setter: writes `v` at `index` when the definition accepts it, else changes nothing. */
    method Set(index: int, v: Value) returns (ok: bool)
      requires Valid() && !v.Null?
      modifies this
      ensures Valid()
      ensures ok == Accepts(columns, index, SetterType(v))
      ensures cells == if ok then old(cells)[index := v] else old(cells)
    {
      ok := Accepts(columns, index, SetterType(v));
      if ok {
        cells := cells[index := v];
      }
    }
  }

  class Extract {
    var tables: Tables

    /** Create-or-open: `existing` is what was stored at the path (empty when nothing was). */
    constructor Open(existing: Tables)
      ensures tables == existing
    {
      tables := existing;
    }

    predicate HasTable(name: string)
      reads this
    {
      name in tables
    }

    /** Adds an empty table with a snapshot of `definition`; refused when the name is taken. */
    method AddTable(name: string, definition: TableDefinition) returns (ok: bool)
      modifies this
      ensures ok == (name !in old(tables))
      ensures tables == if ok then old(tables)[name := TableData(definition.columns, [])] else old(tables)
    {
      ok := name !in tables;
      if ok {
        tables := tables[name := TableData(definition.columns, [])];
      }
    }

    /** Appends a snapshot of `row`; refused unless the table exists with the row's definition. */
    method Insert(name: string, row: Row) returns (ok: bool)
      modifies this
      ensures ok == (name in old(tables) && old(tables)[name].columns == row.columns && |row.cells| == |row.columns|)
      ensures tables == if ok then old(tables)[name := old(tables)[name].(rows := old(tables)[name].rows + [row.cells])]
                        else old(tables)
    {
      ok := name in tables && tables[name].columns == row.columns && |row.cells| == |row.columns|;
      if ok {
        tables := tables[name := tables[name].(rows := tables[name].rows + [row.cells])];
      }
    }

    /** Flushes the extract: what is written back to its path. */
    method Close() returns (flushed: Tables)
      ensures flushed == tables
    {
      flushed := tables;
    }
  }
}
