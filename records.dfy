/**
 * The customer records of the pipeline and the three places where their
 * fields are moved: the INSERT's positional parameters, the SELECT's result
 * columns, and the CSV line aggregator.
 */
module Records {
  import opened Wrappers

  /** An item unmarshalled from an XML `customer` fragment (`Customer`). */
  datatype Customer = Customer(id: string, name: string)

  /** A record mapped from a row of the table (`CustomerPOJO`). */
  datatype CustomerPojo = CustomerPojo(id: string, name: string)

  /** A row of the table `customer(id, name)`. */
  datatype Row = Row(id: string, name: string)

  /** The row one customer should become: the same two fields. */
  function StoredRow(c: Customer): Row
  {
    Row(c.id, c.name)
  }

  function Rows(items: seq<Customer>): (rows: seq<Row>)
  {
    seq(|items|, i requires 0 <= i < |items| => StoredRow(items[i]))
  }

  lemma RowsAppend(a: seq<Customer>, b: seq<Customer>)
    ensures Rows(a + b) == Rows(a) + Rows(b)
  {
  }

  // ---------------------------------------------------------------- INSERT

  /** The 1-based positional parameters of a prepared statement. */
  type Params = map<nat, string>

  /** `UserItemPreparedStatement.setValues`: parameter 1 gets the id, parameter 2 the name. */
  function SetValues(item: Customer, ps: Params): (r: Params)
    ensures r.Keys == ps.Keys + {1, 2}
    ensures r[1] == item.id && r[2] == item.name
    ensures forall k :: k in ps && k != 1 && k != 2 ==> r[k] == ps[k]
  {
    ps[1 := item.id][2 := item.name]
  }

  /**
   * Executing `INSERT INTO customer (id, name) VALUES (?,?)`: the first
   * placeholder fills column id, the second column name; a placeholder left
   * unset makes the statement fail.
   */
  function Insert(ps: Params): (r: Option<Row>)
    ensures r.Some? <==> 1 in ps && 2 in ps
    ensures r.Some? ==> r.value.id == ps[1] && r.value.name == ps[2]
  {
    if 1 in ps && 2 in ps then Some(Row(ps[1], ps[2])) else None
  }

  /** Binding then inserting stores the item field for field, whatever the statement held before. */
  lemma InsertStoresItem(item: Customer, ps: Params)
    ensures Insert(SetValues(item, ps)) == Some(StoredRow(item))
  {
  }

  // ---------------------------------------------------------------- SELECT

  /** A row of a query result: column labels and the values, column by column. */
  datatype ResultRow = ResultRow(labels: seq<string>, values: seq<string>)

  /** The column list of `SELECT id,name FROM customer`. */
  const SelectColumns: seq<string> := ["id", "name"]

  /**
   * The result of `SELECT id,name FROM customer`: one result row per table
   * row, in the order the rows were inserted. The query has no ORDER BY,
   * so this order is an assumption of the model.
   */
  function Select(table: seq<Row>): (rs: seq<ResultRow>)
  {
    seq(|table|, i requires 0 <= i < |table| => ResultRow(SelectColumns, [table[i].id, table[i].name]))
  }

  /** `ResultSet.getString(int)`: columns are numbered from 1. */
  function GetString(rs: ResultRow, column: nat): string
    requires 1 <= column <= |rs.values|
  {
    rs.values[column - 1]
  }

  /** The first position holding `name`. */
  function IndexOf(labels: seq<string>, name: string): (i: nat)
    requires name in labels
    ensures i < |labels| && labels[i] == name
    ensures forall j :: 0 <= j < i ==> labels[j] != name
  {
    if labels[0] == name then 0 else 1 + IndexOf(labels[1..], name)
  }

  /** The result row carries the two labels that `UserRowMapper` looks up. */
  predicate HasIdName(rs: ResultRow)
  {
    "id" in rs.labels && "name" in rs.labels && |rs.labels| == |rs.values|
  }

  /** `ResultSet.getString(String)`: the value of the first column with that label. */
  function GetStringByLabel(rs: ResultRow, name: string): string
    requires name in rs.labels && |rs.labels| == |rs.values|
  {
    rs.values[IndexOf(rs.labels, name)]
  }

  /** The record `UserRowMapper.mapRow` builds from a result row. */
  function RowToPojo(rs: ResultRow): (c: CustomerPojo)
    requires HasIdName(rs)
    ensures forall j :: 0 <= j < |rs.labels| && rs.labels[j] == "id" && "id" !in rs.labels[..j] ==> rs.values[j] == c.id
    ensures forall j :: 0 <= j < |rs.labels| && rs.labels[j] == "name" && "name" !in rs.labels[..j] ==> rs.values[j] == c.name
  {
    CustomerPojo(GetStringByLabel(rs, "id"), GetStringByLabel(rs, "name"))
  }

  /** Mapping a selected row, by label, copies the row's id and name unchanged. */
  lemma MapRowCopiesRow(r: Row)
    ensures HasIdName(ResultRow(SelectColumns, [r.id, r.name]))
    ensures RowToPojo(ResultRow(SelectColumns, [r.id, r.name])) == CustomerPojo(r.id, r.name)
  {
    var rs := ResultRow(SelectColumns, [r.id, r.name]);
    assert SelectColumns[0] == "id" && SelectColumns[1] == "name";
    assert IndexOf(rs.labels, "name") == 1;
  }

  /** Reading a selected row by position (1, 2) and by label ("id", "name") gives the same values. */
  lemma LabelsMatchPositions(r: Row)
    ensures var rs := ResultRow(SelectColumns, [r.id, r.name]);
      HasIdName(rs) && GetStringByLabel(rs, "id") == GetString(rs, 1) && GetStringByLabel(rs, "name") == GetString(rs, 2)
  {
    MapRowCopiesRow(r);
  }

  /** The records the store reader yields for a table, row by row. */
  function StoreRecords(table: seq<Row>): (recs: seq<CustomerPojo>)
  {
    seq(|table|, i requires 0 <= i < |table| => (MapRowCopiesRow(table[i]); RowToPojo(Select(table)[i])))
  }

  /** The store reader yields, at each position, the id and name of the table row there. */
  lemma StoreRecordAt(table: seq<Row>, i: nat)
    requires i < |table|
    ensures |Select(table)| == |StoreRecords(table)| == |table|
    ensures Select(table)[i] == ResultRow(SelectColumns, [table[i].id, table[i].name])
    ensures StoreRecords(table)[i] == RowToPojo(Select(table)[i]) == CustomerPojo(table[i].id, table[i].name)
  {
    MapRowCopiesRow(table[i]);
  }

  // ---------------------------------------------------------------- CSV

  /** `DelimitedLineAggregator` with delimiter "," over the fields id, name. */
  function Line(p: CustomerPojo): (line: string)
  {
    p.id + "," + p.name
  }

  /** The line holds the id, then a comma, then the name, with nothing else around them. */
  lemma LineFields(p: CustomerPojo)
    ensures var line := Line(p);
      && |line| == |p.id| + 1 + |p.name|
      && line[..|p.id|] == p.id && line[|p.id|] == ',' && line[|p.id| + 1..] == p.name
  {
  }

  function Lines(items: seq<CustomerPojo>): (lines: seq<string>)
  {
    seq(|items|, i requires 0 <= i < |items| => Line(items[i]))
  }

  /** The line written for the `i`-th record read back from a table is that row's id, a comma and its name. */
  lemma LineOfRow(table: seq<Row>, i: nat)
    requires i < |table|
    ensures |Lines(StoreRecords(table))| == |table|
    ensures Lines(StoreRecords(table))[i] == table[i].id + "," + table[i].name
  {
    StoreRecordAt(table, i);
  }

  lemma LinesAppend(a: seq<CustomerPojo>, b: seq<CustomerPojo>)
    ensures Lines(a + b) == Lines(a) + Lines(b)
  {
  }

  /** Position of the first comma, or the length when there is none. */
  function FirstComma(s: string): (k: nat)
    ensures k <= |s|
    ensures forall j :: 0 <= j < k ==> s[j] != ','
    ensures k < |s| ==> s[k] == ','
  {
    if |s| == 0 then 0 else if s[0] == ',' then 0 else 1 + FirstComma(s[1..])
  }

  /** Reads a line back as (id, name), splitting at the first comma. */
  function SplitLine(line: string): (string, string)
  {
    var k := FirstComma(line);
    if k < |line| then (line[..k], line[k + 1..]) else (line, "")
  }

  /** A line reads back as the record it was written from, as long as the id holds no comma. */
  lemma LineRoundTrip(p: CustomerPojo)
    requires ',' !in p.id
    ensures SplitLine(Line(p)) == (p.id, p.name)
  {
    var line := Line(p);
    assert line[|p.id|] == ',';
    assert forall j :: 0 <= j < |p.id| ==> line[j] == p.id[j];
    assert FirstComma(line) == |p.id|;
    assert line[..|p.id|] == p.id;
    assert line[|p.id| + 1..] == p.name;
  }

  /** The aggregator does not quote: two different records can produce the same line. */
  lemma LineIsAmbiguous()
    ensures Line(CustomerPojo("1,2", "x")) == Line(CustomerPojo("1", "2,x"))
  {
  }
}
