/** Parameterised SQL as the routes build it, the database as an abstract function
    from queries to results, and the JSON bodies the list endpoints answer with. */
module Sql {
  import opened Js

  /** A piece of SQL text: literal text, or a `?` placeholder. */
  datatype Frag = Text(text: string) | Hole

  type Sql = seq<Frag>

  /** The SQL string sent to the driver. */
  function Render(q: Sql): string {
    if q == [] then "" else (match q[0] case Text(t) => t case Hole => "?") + Render(q[1..])
  }

  /** The number of placeholders the query carries. */
  function Holes(q: Sql): nat {
    multiset(q)[Hole]
  }

  /** The number of `?` characters in a string. */
  function Placeholders(s: string): nat {
    if s == [] then 0 else (if s[0] == '?' then 1 else 0) + Placeholders(s[1..])
  }

  /** No literal piece contains a `?` of its own; this can fail only when a column
      name read from the live schema contains one. */
  predicate TextsFree(q: Sql) {
    forall i :: 0 <= i < |q| && q[i].Text? ==> '?' !in q[i].text
  }

  lemma {:induction false} PlaceholdersAppend(a: string, b: string)
    ensures Placeholders(a + b) == Placeholders(a) + Placeholders(b)
  {
    if a == [] {
      assert a + b == b;
    } else {
      assert (a + b)[1..] == a[1..] + b;
      PlaceholdersAppend(a[1..], b);
    }
  }

  lemma {:induction false} PlaceholdersNone(a: string)
    requires '?' !in a
    ensures Placeholders(a) == 0
  {
    if a != [] {
      assert a[0] in a;
      assert forall x :: x in a[1..] ==> x in a;
      PlaceholdersNone(a[1..]);
    }
  }

  /** The `?` characters of the rendered string are exactly the placeholders. */
  lemma {:induction false} RenderPlaceholders(q: Sql)
    requires TextsFree(q)
    ensures Placeholders(Render(q)) == Holes(q)
  {
    if q != [] {
      var head := match q[0] case Text(t) => t case Hole => "?";
      assert q == [q[0]] + q[1..];
      assert multiset(q) == multiset{q[0]} + multiset(q[1..]);
      assert TextsFree(q[1..]) by {
        forall i | 0 <= i < |q[1..]| && q[1..][i].Text? ensures '?' !in q[1..][i].text {
          assert q[1..][i] == q[i + 1];
        }
      }
      RenderPlaceholders(q[1..]);
      PlaceholdersAppend(head, Render(q[1..]));
      if q[0].Text? {
        PlaceholdersNone(head);
      }
    }
  }

  /** Every statement is sent to one of the four connection pools. */
  datatype Pool = Tokens | Iga | Server | Darkrp

  function PoolKey(p: Pool): string {
    match p
    case Tokens => "tokens"
    case Iga => "iga"
    case Server => "server"
    case Darkrp => "darkrp"
  }

  type Row = map<string, Value>

  /** `row[key]`: a missing column reads as `undefined`, falsy like `null`. */
  function Get(row: Row, key: string): Value {
    if key in row then row[key] else VNull
  }

  datatype Query = Query(pool: Pool, sql: Sql, params: seq<Value>)

  /** What the driver returns: the rows, or the rejection of the promise. */
  datatype QueryResult = Failed(message: string) | Rows(rows: seq<Row>)

  /** The database, as seen by a handler: what each statement would return. */
  type Database = Query -> QueryResult

  /** `%${search}%` */
  function Pattern(search: string): Value {
    VStr("%" + search + "%")
  }

  /** `{ limit = d } = req.query` followed by `parseInt`: the default applies only when
      the parameter is absent. */
  function ParamOr(p: Option<int>, default: int): int {
    match p
    case Some(v) => v
    case None => default
  }

  /** `countResult[0]?.total || 0` */
  function TotalOf(countRows: seq<Row>): (total: Value)
    ensures Truthy(total) || total == VInt(0)
    ensures |countRows| > 0 && "total" in countRows[0] && Truthy(countRows[0]["total"]) ==> total == countRows[0]["total"]
    ensures !(|countRows| > 0 && "total" in countRows[0] && Truthy(countRows[0]["total"])) ==> total == VInt(0)
  {
    if |countRows| > 0 && "total" in countRows[0] && Truthy(countRows[0]["total"]) then countRows[0]["total"] else VInt(0)
  }

  /** `{ data, total, limit, offset }` */
  datatype Page = Page(data: seq<Row>, total: Value, limit: int, offset: int)

  /** The JSON answers of the read endpoints. */
  datatype Reply =
    | PageReply(page: Page)            // 200 with a page of rows
    | RowReply(row: Option<Row>)       // 200 with one row or null
    | RowsReply(rows: seq<Row>)        // 200 with all matching rows
    | Unavailable(error: string, details: Option<string>)  // 503
    | ServerError(message: string)     // 500

  /** `db.connectionStatus?.[key] === 'connected'` */
  predicate Connected(status: map<string, string>, key: string) {
    key in status && status[key] == "connected"
  }

  /** The answer of a list endpoint once its two statements have run: the error of the
      first rejected statement, or the page. */
  function PageOf(main: QueryResult, count: QueryResult, limit: int, offset: int): (r: Reply)
    ensures main.Failed? ==> r == ServerError(main.message)
    ensures main.Rows? && count.Failed? ==> r == ServerError(count.message)
    ensures main.Rows? && count.Rows? ==> r == PageReply(Page(main.rows, TotalOf(count.rows), limit, offset))
  {
    if main.Failed? then ServerError(main.message)
    else if count.Failed? then ServerError(count.message)
    else PageReply(Page(main.rows, TotalOf(count.rows), limit, offset))
  }

  /** `rows[0] || null` */
  function FirstRow(rows: seq<Row>): Option<Row> {
    if |rows| > 0 then Some(rows[0]) else None
  }

  /** `res.json(rows[0] || null)` in a `try`, with 500 in its `catch`. */
  function RowOf(r: QueryResult): (reply: Reply)
    ensures r.Failed? ==> reply == ServerError(r.message)
    ensures r.Rows? && |r.rows| > 0 ==> reply == RowReply(Some(r.rows[0]))
    ensures r.Rows? && |r.rows| == 0 ==> reply == RowReply(None)
  {
    match r
    case Failed(message) => ServerError(message)
    case Rows(rows) => RowReply(FirstRow(rows))
  }

  /** `res.json(rows)` in a `try`, with 500 in its `catch`. */
  function RowsOf(r: QueryResult): (reply: Reply)
    ensures r.Failed? ==> reply == ServerError(r.message)
    ensures r.Rows? ==> reply == RowsReply(r.rows)
  {
    match r
    case Failed(message) => ServerError(message)
    case Rows(rows) => RowsReply(rows)
  }
}
