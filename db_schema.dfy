/** The schema utilities: the record of each table (its columns, its indexes and its
    `CREATE TABLE` text), the grouping of index rows by key name with the UNIQUE/INDEX
    label, and the guess at relations between tables from the field names they share. */
module DbSchema {
  import opened Js
  import opened Sql
  import opened SchemaProbe

  // ------------------------------------------------------------------ table records

  /** One column as `SHOW COLUMNS` reports it, under the record's own names. */
  datatype ColumnInfo = ColumnInfo(field: Value, colType: Value, nullable: Value, key: Value, default: Value, extra: Value)

  /** One row of `SHOW INDEXES`, under the record's own names. */
  datatype IndexInfo = IndexInfo(keyName: Value, columnName: Value, nonUnique: Value, seqInIndex: Value)

  /** `columns.map((col) => ({ field: col.Field, … }))`: the same columns in the same order,
      each field copied. */
  function ColumnInfos(rows: seq<Row>): (infos: seq<ColumnInfo>)
    ensures |infos| == |rows|
    ensures forall i :: 0 <= i < |rows| ==> (infos[i].field == Get(rows[i], "Field") && infos[i].colType == Get(rows[i], "Type")
      && infos[i].nullable == Get(rows[i], "Null") && infos[i].key == Get(rows[i], "Key")
      && infos[i].default == Get(rows[i], "Default") && infos[i].extra == Get(rows[i], "Extra"))
  {
    if rows == [] then []
    else
      var r := rows[0];
      [ColumnInfo(Get(r, "Field"), Get(r, "Type"), Get(r, "Null"), Get(r, "Key"), Get(r, "Default"), Get(r, "Extra"))]
      + ColumnInfos(rows[1..])
  }

  /** `indexes.map((idx) => ({ keyName: idx.Key_name, … }))`. */
  function IndexInfos(rows: seq<Row>): (infos: seq<IndexInfo>)
    ensures |infos| == |rows|
    ensures forall i :: 0 <= i < |rows| ==> (infos[i].keyName == Get(rows[i], "Key_name")
      && infos[i].columnName == Get(rows[i], "Column_name") && infos[i].nonUnique == Get(rows[i], "Non_unique")
      && infos[i].seqInIndex == Get(rows[i], "Seq_in_index"))
  {
    if rows == [] then []
    else
      var r := rows[0];
      [IndexInfo(Get(r, "Key_name"), Get(r, "Column_name"), Get(r, "Non_unique"), Get(r, "Seq_in_index"))]
      + IndexInfos(rows[1..])
  }

  /** The mapping is row by row: the records of two runs of rows are the records of each. */
  lemma {:induction false} ColumnInfosAppend(a: seq<Row>, b: seq<Row>)
    ensures ColumnInfos(a + b) == ColumnInfos(a) + ColumnInfos(b)
  {
    if a != [] {
      assert (a + b)[1..] == a[1..] + b;
      ColumnInfosAppend(a[1..], b);
    } else {
      assert a + b == b;
    }
  }

  /** `createTable[0]?.['Create Table'] || null` */
  function CreateStatement(rows: seq<Row>): (v: Value)
    ensures v == VNull || Truthy(v)
    ensures |rows| > 0 && Truthy(Get(rows[0], "Create Table")) ==> v == Get(rows[0], "Create Table")
    ensures !(|rows| > 0 && Truthy(Get(rows[0], "Create Table"))) ==> v == VNull
  {
    if |rows| > 0 && Truthy(Get(rows[0], "Create Table")) then Get(rows[0], "Create Table") else VNull
  }

  /** What the three statements about one table return. */
  datatype TableMeta = TableMeta(columns: seq<Row>, indexes: seq<Row>, create: seq<Row>)

  datatype TableInfo = TableInfo(name: string, columns: seq<ColumnInfo>, indexes: seq<IndexInfo>, createStatement: Value)

  function TableInfoOf(name: string, meta: TableMeta): TableInfo {
    TableInfo(name, ColumnInfos(meta.columns), IndexInfos(meta.indexes), CreateStatement(meta.create))
  }

  datatype Schema = Schema(database: string, databaseKey: string, tables: map<string, TableInfo>)

  /** `getDatabaseSchema`: the record of every table `SHOW TABLES` names, keyed by its
      name; the database name is the configured one, else the key. The statements about a
      table are given as `meta`, None when one of them was rejected, which rejects the
      whole call. */
  method DatabaseSchema(dbName: string, configured: Option<string>, tableNames: seq<string>, meta: string -> Option<TableMeta>)
    returns (schema: Option<Schema>)
    ensures schema.None? <==> exists k :: 0 <= k < |tableNames| && meta(tableNames[k]).None?
    ensures schema.Some? ==> (schema.value.databaseKey == dbName
      && schema.value.database == (if Present(configured) then configured.value else dbName))
    ensures schema.Some? ==> schema.value.tables.Keys == set k | 0 <= k < |tableNames| :: tableNames[k]
    ensures schema.Some? ==> forall t :: t in schema.value.tables ==> meta(t).Some? && schema.value.tables[t] == TableInfoOf(t, meta(t).value)
  {
    var database := if Present(configured) then configured.value else dbName;
    var tables: map<string, TableInfo> := map[];
    var i := 0;
    while i < |tableNames|
      invariant 0 <= i <= |tableNames|
      invariant forall k :: 0 <= k < i ==> meta(tableNames[k]).Some?
      invariant tables.Keys == set k | 0 <= k < i :: tableNames[k]
      invariant forall t :: t in tables ==> meta(t).Some? && tables[t] == TableInfoOf(t, meta(t).value)
    {
      var name := tableNames[i];
      var fetched := meta(name);
      if fetched.None? {
        return None;
      }
      tables := tables[name := TableInfoOf(name, fetched.value)];
      i := i + 1;
    }
    schema := Some(Schema(database, dbName, tables));
  }

  // ------------------------------------------------------------------ index grouping

  /** The key names in the order of their first row, the order `Object.keys(uniqueIndexes)`
      gives for names that are not array indices. */
  function Keys(idx: seq<IndexInfo>): (ks: seq<Value>)
    ensures forall k :: k in ks <==> exists i :: 0 <= i < |idx| && idx[i].keyName == k
    ensures forall a, b :: 0 <= a < b < |ks| ==> ks[a] != ks[b]
  {
    if idx == [] then []
    else
      var p := Keys(idx[..|idx| - 1]);
      assert forall i :: 0 <= i < |idx| - 1 ==> idx[..|idx| - 1][i] == idx[i];
      var k := idx[|idx| - 1].keyName;
      if k in p then p else p + [k]
  }

  /** The column names of the rows with key name `k`, in row order. */
  function Members(idx: seq<IndexInfo>, k: Value): (cols: seq<Value>)
    ensures cols == [] <==> forall i :: 0 <= i < |idx| ==> idx[i].keyName != k
  {
    if idx == [] then []
    else
      var p := Members(idx[..|idx| - 1], k);
      assert forall i :: 0 <= i < |idx| - 1 ==> idx[..|idx| - 1][i] == idx[i];
      p + (if idx[|idx| - 1].keyName == k then [idx[|idx| - 1].columnName] else [])
  }

  /** The number of columns across the groups of the keys `ks`. */
  function SumSizes(idx: seq<IndexInfo>, ks: seq<Value>): nat {
    if ks == [] then 0 else |Members(idx, ks[0])| + SumSizes(idx, ks[1..])
  }

  /** A sum over distinct keys counts one key's growth once. */
  lemma {:induction false} SumShift(p: seq<IndexInfo>, idx: seq<IndexInfo>, ks: seq<Value>, k: Value)
    requires forall a, b :: 0 <= a < b < |ks| ==> ks[a] != ks[b]
    requires forall j :: 0 <= j < |ks| && ks[j] != k ==> |Members(idx, ks[j])| == |Members(p, ks[j])|
    requires |Members(idx, k)| == |Members(p, k)| + 1
    ensures SumSizes(idx, ks) == SumSizes(p, ks) + (if k in ks then 1 else 0)
  {
    if ks != [] {
      assert forall j :: 0 <= j < |ks| - 1 ==> ks[1..][j] == ks[j + 1];
      SumShift(p, idx, ks[1..], k);
      if ks[0] == k {
        assert k !in ks[1..];
      }
    }
  }

  lemma {:induction false} SumAppend(idx: seq<IndexInfo>, ks: seq<Value>, k: Value)
    ensures SumSizes(idx, ks + [k]) == SumSizes(idx, ks) + |Members(idx, k)|
  {
    if ks == [] {
      assert [] + [k] == [k];
    } else {
      assert (ks + [k])[1..] == ks[1..] + [k];
      SumAppend(idx, ks[1..], k);
    }
  }

  /** Grouping loses no index row and invents none: the groups hold as many column names
      as there are rows. */
  lemma {:induction false} GroupsCoverRows(idx: seq<IndexInfo>)
    ensures SumSizes(idx, Keys(idx)) == |idx|
  {
    if idx != [] {
      var p := idx[..|idx| - 1];
      var k := idx[|idx| - 1].keyName;
      GroupsCoverRows(p);
      assert |Members(idx, k)| == |Members(p, k)| + 1;
      SumShift(p, idx, Keys(p), k);
      if k !in Keys(p) {
        SumAppend(idx, Keys(p), k);
        assert Members(p, k) == [];
      }
    }
  }

  /** `indexes.find((idx) => idx.Key_name === keyName)`, as an index. */
  function FirstWithKey(idx: seq<IndexInfo>, k: Value): (r: Option<nat>)
    ensures r.Some? ==> r.value < |idx| && idx[r.value].keyName == k
    ensures r.Some? ==> forall j :: 0 <= j < r.value ==> idx[j].keyName != k
    ensures r.None? <==> forall j :: 0 <= j < |idx| ==> idx[j].keyName != k
  {
    if idx == [] then None
    else if idx[0].keyName == k then Some(0)
    else
      match FirstWithKey(idx[1..], k)
      case None =>
        assert forall j :: 1 <= j < |idx| ==> idx[j] == idx[1..][j - 1];
        None
      case Some(j) =>
        assert forall i :: 1 <= i <= j + 1 ==> idx[i] == idx[1..][i - 1];
        Some(j + 1)
  }

  /** `?.Non_unique === 0`: UNIQUE exactly when the first row of the key says so. */
  predicate Unique(idx: seq<IndexInfo>, k: Value) {
    var first := FirstWithKey(idx, k);
    first.Some? && idx[first.value].nonUnique == VInt(0)
  }

  /** The grouping loop: `if (!uniqueIndexes[k]) uniqueIndexes[k] = []; …push(column)`. */
  method GroupIndexes(idx: seq<IndexInfo>) returns (order: seq<Value>, groups: map<Value, seq<Value>>)
    ensures order == Keys(idx)
    ensures groups.Keys == set k | k in order
    ensures forall k :: k in groups ==> groups[k] == Members(idx, k)
  {
    order := [];
    groups := map[];
    var i := 0;
    while i < |idx|
      invariant 0 <= i <= |idx|
      invariant order == Keys(idx[..i])
      invariant groups.Keys == set k | k in order
      invariant forall k :: k in groups ==> groups[k] == Members(idx[..i], k)
    {
      assert idx[..i + 1][..i] == idx[..i];
      var k := idx[i].keyName;
      if k !in groups {
        groups := groups[k := []];
        order := order + [k];
        assert Members(idx[..i], k) == [];
      }
      groups := groups[k := groups[k] + [idx[i].columnName]];
      i := i + 1;
    }
    assert idx[..i] == idx;
  }

  /** One line of the index report: the key, its UNIQUE/INDEX label and its columns. */
  datatype IndexSummary = IndexSummary(keyName: Value, unique: bool, columns: seq<Value>)

  /** The report line of key `k`: UNIQUE when the key's first row says so, and the key's
      columns in row order. */
  function Summary(idx: seq<IndexInfo>, k: Value): IndexSummary {
    IndexSummary(k, Unique(idx, k), Members(idx, k))
  }

  /** The report line of key `k`, from its group. */
  method Summarize(idx: seq<IndexInfo>, k: Value, columns: seq<Value>) returns (summary: IndexSummary)
    requires columns == Members(idx, k)
    ensures summary == Summary(idx, k)
  {
    var first := FirstWithKey(idx, k);
    var unique := first.Some? && idx[first.value].nonUnique == VInt(0);
    summary := IndexSummary(k, unique, columns);
  }

  /** `Object.keys(uniqueIndexes).forEach(…)`: one summary per key of `order`, from its
      group. */
  method SummarizeAll(idx: seq<IndexInfo>, order: seq<Value>, groups: map<Value, seq<Value>>)
    returns (report: seq<IndexSummary>)
    requires forall k :: k in order ==> k in groups && groups[k] == Members(idx, k)
    ensures |report| == |order|
    ensures forall i :: 0 <= i < |report| ==> report[i] == Summary(idx, order[i])
  {
    report := [];
    var i := 0;
    while i < |order|
      invariant 0 <= i <= |order|
      invariant |report| == i
      invariant forall j :: 0 <= j < i ==> report[j] == Summary(idx, order[j])
    {
      assert order[i] in order;
      var summary := Summarize(idx, order[i], groups[order[i]]);
      var before := report;
      report := report + [summary];
      assert forall j :: 0 <= j < i ==> report[j] == before[j];
      i := i + 1;
    }
  }

  /** The index report: one summary per key, in the order of the keys' first rows. */
  method IndexReport(idx: seq<IndexInfo>) returns (report: seq<IndexSummary>)
    ensures |report| == |Keys(idx)|
    ensures forall i :: 0 <= i < |report| ==> report[i] == Summary(idx, Keys(idx)[i])
  {
    var order, groups := GroupIndexes(idx);
    report := SummarizeAll(idx, order, groups);
  }

  // ------------------------------------------------------------------ relations

  /** `cols.map((c) => c.Field.toLowerCase())` */
  function LowerFields(columns: seq<Column>): (fields: seq<string>)
    ensures |fields| == |columns|
    ensures forall i :: 0 <= i < |columns| ==> fields[i] == Lower(columns[i].field)
  {
    if columns == [] then [] else [Lower(columns[0].field)] + LowerFields(columns[1..])
  }

  /** `fields1.filter((f) => fields2.includes(f))` */
  function CommonFields(fields1: seq<string>, fields2: seq<string>): (common: seq<string>)
    ensures forall f :: f in common <==> f in fields1 && f in fields2
    ensures |common| <= |fields1|
  {
    if fields1 == [] then []
    else (if fields1[0] in fields2 then [fields1[0]] else []) + CommonFields(fields1[1..], fields2)
  }

  /** The filter keeps table 1's order: filtering two runs of fields filters each. */
  lemma {:induction false} CommonFieldsAppend(a: seq<string>, b: seq<string>, fields2: seq<string>)
    ensures CommonFields(a + b, fields2) == CommonFields(a, fields2) + CommonFields(b, fields2)
  {
    if a == [] {
      assert a + b == b;
    } else {
      assert (a + b)[0] == a[0];
      assert (a + b)[1..] == a[1..] + b;
      CommonFieldsAppend(a[1..], b, fields2);
    }
  }

  /** A table of `SHOW TABLES` with the outcome of `SHOW COLUMNS FROM` it (None when the
      statement was rejected). */
  datatype ProbedTable = ProbedTable(name: string, columns: Probe)

  datatype Relation = Relation(table1: string, table2: string, commonFields: seq<string>)

  /** The fields two tables share, as the relation search computes them. */
  function Shared(c1: seq<Column>, c2: seq<Column>): seq<string> {
    CommonFields(LowerFields(c1), LowerFields(c2))
  }

  /** The relation of the pair `(i, j)`, when both tables' columns are known and they
      share a field. */
  function PairRelation(tables: seq<ProbedTable>, i: nat, j: nat): seq<Relation>
    requires i < j < |tables|
  {
    var p1 := tables[i].columns;
    var p2 := tables[j].columns;
    if p1.Some? && p2.Some? && |Shared(p1.value, p2.value)| > 0 then
      [Relation(tables[i].name, tables[j].name, Shared(p1.value, p2.value))]
    else []
  }

  /** The relations of the pairs `(i, j')` with `i < j' < j`, in order of `j'`. */
  function RowUpTo(tables: seq<ProbedTable>, i: nat, j: nat): seq<Relation>
    requires i < |tables| && j <= |tables|
    decreases j
  {
    if j <= i + 1 then [] else RowUpTo(tables, i, j - 1) + PairRelation(tables, i, j - 1)
  }

  /** The relations of every pair whose first index is below `i`, in lexicographic order. */
  function UpTo(tables: seq<ProbedTable>, i: nat): seq<Relation>
    requires i <= |tables|
  {
    if i == 0 then [] else UpTo(tables, i - 1) + RowUpTo(tables, i - 1, |tables|)
  }

  lemma {:induction false} RowSound(tables: seq<ProbedTable>, i: nat, j: nat, r: Relation)
    requires i < |tables| && j <= |tables|
    requires r in RowUpTo(tables, i, j)
    ensures exists k :: i < k < j && r in PairRelation(tables, i, k)
    decreases j
  {
    if j > i + 1 {
      if r in RowUpTo(tables, i, j - 1) {
        RowSound(tables, i, j - 1, r);
      } else {
        assert r in PairRelation(tables, i, j - 1);
      }
    }
  }

  /** Every relation found is the relation of a pair `i < j`: both tables probed, sharing
      a field. */
  lemma {:induction false} RelationsSound(tables: seq<ProbedTable>, n: nat, r: Relation)
    requires n <= |tables|
    requires r in UpTo(tables, n)
    ensures exists i, j :: 0 <= i < j < |tables| && i < n && r in PairRelation(tables, i, j)
  {
    if n > 0 {
      if r in UpTo(tables, n - 1) {
        RelationsSound(tables, n - 1, r);
      } else {
        RowSound(tables, n - 1, |tables|, r);
      }
    }
  }

  lemma {:induction false} RowComplete(tables: seq<ProbedTable>, i: nat, j: nat, k: nat, r: Relation)
    requires i < k < j <= |tables|
    requires r in PairRelation(tables, i, k)
    ensures r in RowUpTo(tables, i, j)
    decreases j
  {
    if k < j - 1 {
      RowComplete(tables, i, j - 1, k, r);
    }
  }

  /** The relations below `n` include those of row `n - 1`. */
  lemma RowInNext(tables: seq<ProbedTable>, n: nat, r: Relation)
    requires 0 < n <= |tables| && r in RowUpTo(tables, n - 1, |tables|)
    ensures r in UpTo(tables, n)
  {
  }

  /** The relations below `n` include those below `n - 1`. */
  lemma UpToExtends(tables: seq<ProbedTable>, n: nat, r: Relation)
    requires 0 < n <= |tables| && r in UpTo(tables, n - 1)
    ensures r in UpTo(tables, n)
  {
  }

  /** A relation of row `i` is among the relations of the rows below any `n > i`. */
  lemma {:induction false} RowInUpTo(tables: seq<ProbedTable>, i: nat, n: nat, r: Relation)
    requires i < n <= |tables|
    requires r in RowUpTo(tables, i, |tables|)
    ensures r in UpTo(tables, n)
    decreases n
  {
    if i == n - 1 {
      RowInNext(tables, n, r);
    } else {
      RowInUpTo(tables, i, n - 1, r);
      UpToExtends(tables, n, r);
    }
  }

  /** Every pair `i < j` whose tables share a field is found: the relation of the pair is
      among the relations of the rows below `n`. */
  lemma RelationsComplete(tables: seq<ProbedTable>, n: nat, i: nat, j: nat, r: Relation)
    requires i < n <= |tables| && i < j < |tables|
    requires r in PairRelation(tables, i, j)
    ensures r in UpTo(tables, n)
  {
    RowComplete(tables, i, |tables|, j, r);
    RowInUpTo(tables, i, n, r);
  }

  /** The search answers only when every table it has to probe could be probed: with two
      tables or more, all of them. */
  predicate AllProbed(tables: seq<ProbedTable>) {
    |tables| < 2 || forall k :: 0 <= k < |tables| ==> tables[k].columns.Some?
  }

  /** One step of the inner loop: both tables' columns, their lower-cased fields, and
      the relation pushed when they share any. */
  method RelatePair(tables: seq<ProbedTable>, i: nat, j: nat) returns (pushed: Option<seq<Relation>>)
    requires i < j < |tables|
    ensures pushed.None? <==> tables[i].columns.None? || tables[j].columns.None?
    ensures pushed.Some? ==> pushed.value == PairRelation(tables, i, j)
  {
    var cols1 := tables[i].columns;
    var cols2 := tables[j].columns;
    if cols1.None? || cols2.None? {
      return None;
    }
    var common := CommonFields(LowerFields(cols1.value), LowerFields(cols2.value));
    if |common| > 0 {
      pushed := Some([Relation(tables[i].name, tables[j].name, common)]);
    } else {
      pushed := Some([]);
    }
  }

  /** The inner loop has probed table `i` and every table after it up to `j`. */
  predicate ProbedUpTo(tables: seq<ProbedTable>, i: nat, j: nat)
    requires i < j <= |tables|
  {
    (j > i + 1 ==> tables[i].columns.Some?) && forall k :: i < k < j ==> tables[k].columns.Some?
  }

  /** The inner loop's state before pair `(i, j)`: the relations of the earlier pairs, all
      of their tables probed. */
  predicate RowSoFar(tables: seq<ProbedTable>, i: nat, j: nat, found: seq<Relation>)
    requires i < j <= |tables|
  {
    found == RowUpTo(tables, i, j) && ProbedUpTo(tables, i, j)
  }

  /** The pair `(i, j)` added to the row so far; when a table cannot be probed, the row
      as a whole cannot be completed. */
  method ExtendRow(tables: seq<ProbedTable>, i: nat, j: nat, found: seq<Relation>)
    returns (next: Option<seq<Relation>>)
    requires i < j < |tables|
    requires RowSoFar(tables, i, j, found)
    ensures next.None? ==> !ProbedUpTo(tables, i, |tables|)
    ensures next.Some? ==> RowSoFar(tables, i, j + 1, next.value)
  {
    var pair := RelatePair(tables, i, j);
    if pair.None? {
      return None;
    }
    next := Some(found + pair.value);
  }

  /** The inner loop of the relation search: the pairs `(i, j)` for every `j > i`. */
  method ScanRow(tables: seq<ProbedTable>, i: nat) returns (row: Option<seq<Relation>>)
    requires i < |tables|
    ensures row.None? ==> i + 1 < |tables| && !ProbedUpTo(tables, i, |tables|)
    ensures row.Some? ==> row.value == RowUpTo(tables, i, |tables|) && ProbedUpTo(tables, i, |tables|)
  {
    var found: seq<Relation> := [];
    var j := i + 1;
    while j < |tables|
      invariant i + 1 <= j <= |tables|
      invariant RowSoFar(tables, i, j, found)
    {
      var next := ExtendRow(tables, i, j, found);
      if next.None? {
        return None;
      }
      found := next.value;
      j := j + 1;
    }
    row := Some(found);
  }

  /** The first row of pairs probes every table. */
  lemma FirstRowProbesAll(tables: seq<ProbedTable>)
    requires 0 < |tables| && ProbedUpTo(tables, 0, |tables|)
    ensures AllProbed(tables)
  {
    if |tables| >= 2 {
      forall k | 0 <= k < |tables|
        ensures tables[k].columns.Some?
      {
        if k > 0 {
          assert 0 < k < |tables|;
        }
      }
    }
  }

  /** A row that meets a table it cannot probe means not every table could be. */
  lemma RowFailure(tables: seq<ProbedTable>, i: nat)
    requires i + 1 < |tables| && !ProbedUpTo(tables, i, |tables|)
    ensures !AllProbed(tables)
  {
  }

  /** The outer loop's state before row `i`: the relations of the earlier rows, and every
      table probed once a row has been scanned. */
  predicate RelationsSoFar(tables: seq<ProbedTable>, i: nat, found: seq<Relation>)
    requires i <= |tables|
  {
    found == UpTo(tables, i) && (i >= 1 ==> AllProbed(tables))
  }

  /** Row `i` added to the relations so far; when one of its tables cannot be probed,
      not every table could be. */
  method ExtendRelations(tables: seq<ProbedTable>, i: nat, found: seq<Relation>)
    returns (next: Option<seq<Relation>>)
    requires i < |tables| && RelationsSoFar(tables, i, found)
    ensures next.None? ==> !AllProbed(tables)
    ensures next.Some? ==> RelationsSoFar(tables, i + 1, next.value)
  {
    var row := ScanRow(tables, i);
    if row.None? {
      RowFailure(tables, i);
      return None;
    }
    if i == 0 {
      FirstRowProbesAll(tables);
    }
    next := Some(found + row.value);
  }

  /** `findTableRelations`: for each pair `i < j` in order, the pair with the fields it
      shares when it shares any; rejected as a whole as soon as a `SHOW COLUMNS` is. */
  method FindTableRelations(tables: seq<ProbedTable>) returns (relations: Option<seq<Relation>>)
    ensures relations.None? <==> !AllProbed(tables)
    ensures relations.Some? ==> relations.value == UpTo(tables, |tables|)
  {
    var found: seq<Relation> := [];
    var i := 0;
    while i < |tables|
      invariant 0 <= i <= |tables|
      invariant RelationsSoFar(tables, i, found)
    {
      var next := ExtendRelations(tables, i, found);
      if next.None? {
        return None;
      }
      found := next.value;
      i := i + 1;
    }
    relations := Some(found);
  }
}
