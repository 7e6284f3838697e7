/** What the paginated list endpoints share: the shape of the two statements they send
    (the page and its count), the name enrichment the JOIN-less fallbacks perform, and
    the answers built from the results. */
module Listing {
  import opened Js
  import opened Sql

  /** The page statement and the count statement of one list request. */
  datatype Statements = Statements(main: Query, count: Query)

  /** As many placeholders as parameters. */
  predicate WellFormed(q: Query) {
    Holes(q.sql) == |q.params|
  }

  /** `%${search}%`, the value pushed once per placeholder of a search condition. */
  function SearchPattern(search: Option<string>): Value {
    Pattern(if search.Some? then search.value else "")
  }

  /** The parameters pushed for a search, only when a search is given. */
  function Pushed(search: Option<string>, pushed: seq<Value>): seq<Value> {
    if Present(search) then pushed else []
  }

  /** `let q = select; if (search) q += cond;` */
  function Where(search: Option<string>, select: string, cond: Sql): Sql {
    if Present(search) then [Text(select)] + cond else [Text(select)]
  }

  /** ` ORDER BY ${column} DESC LIMIT ? OFFSET ?` */
  function PageTail(column: string): Sql {
    [Text(" ORDER BY " + column + " DESC LIMIT "), Hole, Text(" OFFSET "), Hole]
  }

  /** The page statement ends in the page tail, and its last two parameters are the
      limit and the offset. */
  predicate Paged(q: Query, column: string, limit: int, offset: int) {
    |q.sql| >= 4 && q.sql[|q.sql| - 4..] == PageTail(column)
    && |q.params| >= 2 && q.params[|q.params| - 2..] == [VInt(limit), VInt(offset)]
  }

  /** `${c0} LIKE ? OR ${c1} LIKE ? OR …`: one placeholder per column. */
  function Likes(columns: seq<string>): (q: Sql)
    ensures Holes(q) == |columns|
  {
    if columns == [] then []
    else if |columns| == 1 then [Text(columns[0] + " LIKE "), Hole]
    else [Text(columns[0] + " LIKE "), Hole, Text(" OR ")] + Likes(columns[1..])
  }

  /** ` WHERE ` followed by the conditions on the columns. */
  function LikeAny(columns: seq<string>): (q: Sql)
    ensures Holes(q) == |columns|
  {
    [Text(" WHERE ")] + Likes(columns)
  }

  /** The statements of a list endpoint: the select, the condition when there is a
      search, and the page tail; the count select with its own condition; the
      parameters pushed for the search, and the limit and the offset last. */
  function ListStatements(pool: Pool, select: string, cond: Sql, pushed: seq<Value>,
                          countSelect: string, countCond: Sql, countPushed: seq<Value>,
                          search: Option<string>, column: string, limit: int, offset: int): Statements
  {
    Statements(
      Query(pool, Where(search, select, cond) + PageTail(column), Pushed(search, pushed) + [VInt(limit), VInt(offset)]),
      Query(pool, Where(search, countSelect, countCond), Pushed(search, countPushed)))
  }

  /** When each condition carries as many placeholders as the parameters pushed with
      it, both statements are well formed, the page statement ends in the page tail with
      the limit and the offset last, and the conditions and their parameters appear
      exactly when there is a search. */
  lemma ListShape(pool: Pool, select: string, cond: Sql, pushed: seq<Value>,
                  countSelect: string, countCond: Sql, countPushed: seq<Value>,
                  search: Option<string>, column: string, limit: int, offset: int)
    requires Holes(cond) == |pushed| && Holes(countCond) == |countPushed|
    ensures var s := ListStatements(pool, select, cond, pushed, countSelect, countCond, countPushed, search, column, limit, offset);
      && s.main.pool == pool && s.count.pool == pool
      && WellFormed(s.main) && WellFormed(s.count)
      && Paged(s.main, column, limit, offset)
      && (Present(search) ==> (s.main.sql == [Text(select)] + cond + PageTail(column) && s.count.sql == [Text(countSelect)] + countCond
          && s.main.params == pushed + [VInt(limit), VInt(offset)] && s.count.params == countPushed))
      && (!Present(search) ==> (s.main.sql == [Text(select)] + PageTail(column) && s.count.sql == [Text(countSelect)]
          && s.main.params == [VInt(limit), VInt(offset)] && s.count.params == []))
  {
    var main := Where(search, select, cond) + PageTail(column);
    assert main[|main| - 4..] == PageTail(column);
  }

  /** The statements as every list handler grows them: `let query = select`, the
      condition and its `params.push(…)` when there is a search, then the page tail with
      `params.push(limit, offset)`. */
  method BuildList(pool: Pool, select: string, cond: Sql, pushed: seq<Value>,
                   countSelect: string, countCond: Sql, countPushed: seq<Value>,
                   search: Option<string>, column: string, limit: int, offset: int) returns (s: Statements)
    ensures s == ListStatements(pool, select, cond, pushed, countSelect, countCond, countPushed, search, column, limit, offset)
  {
    var query := [Text(select)];
    var countQuery := [Text(countSelect)];
    var params: seq<Value> := [];
    var countParams: seq<Value> := [];
    if Present(search) {
      query := query + cond;
      countQuery := countQuery + countCond;
      params := params + pushed;
      countParams := countParams + countPushed;
    }
    query := query + PageTail(column);
    params := params + [VInt(limit), VInt(offset)];
    s := Statements(Query(pool, query, params), Query(pool, countQuery, countParams));
  }

  /** The `?` characters of a statement's text are as many as its parameters, provided no
      column name taken from the live schema contains one. */
  lemma RenderedPlaceholders(q: Query)
    requires WellFormed(q) && TextsFree(q.sql)
    ensures Placeholders(Render(q.sql)) == |q.params|
  {
    RenderPlaceholders(q.sql);
  }

  /** `const [rows, countResult] = await Promise.all([…])` succeeded. */
  predicate BothRows(db: Database, s: Statements) {
    db(s.main).Rows? && db(s.count).Rows?
  }

  // ------------------------------------------------------------------ name enrichment

  /** `'SELECT SteamName FROM player WHERE SteamID = ? LIMIT 1'` with the id. */
  function NameLookup(steamId: Value): (q: Query)
    ensures q.pool == Iga && WellFormed(q) && q.params == [steamId]
  {
    Query(Iga, [Text("SELECT SteamName " + "FROM player " + "WHERE SteamID = "), Hole, Text(" LIMIT 1")], [steamId])
  }

  /** `id && id !== 'CONSOLE'`: the ids looked up. */
  predicate LooksUp(id: Value) {
    Truthy(id) && id != VStr("CONSOLE")
  }

  /** The name the lookup of `id` brings: the first row's `SteamName`, when the id is
      looked up and the statement returns a row; a rejected lookup is ignored. */
  function FoundName(id: Value, db: Database): (r: Option<Value>)
    ensures r.Some? <==> LooksUp(id) && db(NameLookup(id)).Rows? && |db(NameLookup(id)).rows| > 0
  {
    if LooksUp(id) then
      match db(NameLookup(id))
      case Rows(rows) => if |rows| > 0 then Some(Get(rows[0], "SteamName")) else None
      case Failed(_) => None
    else None
  }

  /** `copy[nameKey] = result[0].SteamName` when a name was found, and the key as it
      was otherwise. */
  predicate NameSet(before: Row, after: Row, idKey: string, nameKey: string, db: Database) {
    match FoundName(Get(before, idKey), db)
    case Some(name) => nameKey in after && after[nameKey] == name
    case None => (nameKey in after <==> nameKey in before) && (nameKey in before ==> after[nameKey] == before[nameKey])
  }

  /** `{ ...row }`: every other field of the row is copied unchanged, and nothing else is
      added. */
  predicate OthersKept(before: Row, after: Row, names: set<string>) {
    (forall k :: k in before && k !in names ==> k in after && after[k] == before[k])
    && (forall k :: k in after ==> k in before || k in names)
  }

  /** Bans and punishments name the player and the admin; staff only the player. */
  datatype Names = PlayerOnly | PlayerAndAdmin

  function NameKeys(names: Names): set<string> {
    if names == PlayerOnly then {"player_name"} else {"player_name", "admin_name"}
  }

  predicate Enriched(before: Row, after: Row, names: Names, db: Database) {
    NameSet(before, after, "SteamID", "player_name", db)
    && (names == PlayerAndAdmin ==> NameSet(before, after, "A_SteamID", "admin_name", db))
    && OthersKept(before, after, NameKeys(names))
  }

  /** A statement this enrichment sends: the lookup of an id that is looked up. */
  predicate IsLookup(q: Query) {
    |q.params| == 1 && q == NameLookup(q.params[0]) && LooksUp(q.params[0])
  }

  /** One row of the `rows.map(async (row) => { const copy = { ...row }; … })`. */
  method WithNames(row: Row, names: Names, db: Database) returns (named: Row, lookups: seq<Query>)
    ensures Enriched(row, named, names, db)
    ensures forall q :: q in lookups ==> IsLookup(q)
    ensures LooksUp(Get(row, "SteamID")) <==> NameLookup(Get(row, "SteamID")) in lookups
    ensures names == PlayerAndAdmin ==> (LooksUp(Get(row, "A_SteamID")) <==> NameLookup(Get(row, "A_SteamID")) in lookups)
  {
    named := row;
    lookups := [];
    var player := Get(row, "SteamID");
    if LooksUp(player) {
      var result := db(NameLookup(player));
      lookups := lookups + [NameLookup(player)];
      if result.Rows? && |result.rows| > 0 {
        named := named["player_name" := Get(result.rows[0], "SteamName")];
      }
    }
    if names == PlayerAndAdmin {
      var admin := Get(row, "A_SteamID");
      if LooksUp(admin) {
        var result := db(NameLookup(admin));
        lookups := lookups + [NameLookup(admin)];
        if result.Rows? && |result.rows| > 0 {
          named := named["admin_name" := Get(result.rows[0], "SteamName")];
        }
      }
    }
  }

  /** `await Promise.all(rows.map(…))`, one row after the other. */
  method EnrichRows(rows: seq<Row>, names: Names, db: Database) returns (named: seq<Row>, lookups: seq<Query>)
    ensures |named| == |rows|
    ensures forall i :: 0 <= i < |rows| ==> Enriched(rows[i], named[i], names, db)
    ensures forall q :: q in lookups ==> IsLookup(q)
  {
    named := [];
    lookups := [];
    var i := 0;
    while i < |rows|
      invariant 0 <= i <= |rows|
      invariant |named| == i
      invariant forall k :: 0 <= k < i ==> Enriched(rows[k], named[k], names, db)
      invariant forall q :: q in lookups ==> IsLookup(q)
    {
      var row, sent := WithNames(rows[i], names, db);
      named := named + [row];
      lookups := lookups + sent;
      i := i + 1;
    }
  }

  /** A row whose ids are all empty or `'CONSOLE'` comes back as it was. */
  lemma UnlookedRowUnchanged(before: Row, after: Row, names: Names, db: Database)
    requires Enriched(before, after, names, db)
    requires !LooksUp(Get(before, "SteamID"))
    requires names == PlayerAndAdmin ==> !LooksUp(Get(before, "A_SteamID"))
    ensures after == before
  {
    assert FoundName(Get(before, "SteamID"), db).None?;
    assert names == PlayerAndAdmin ==> FoundName(Get(before, "A_SteamID"), db).None?;
    assert forall k :: k in before ==> k in after && after[k] == before[k];
  }

  /** The answer of a JOIN-less fallback: the error of the first rejected statement, or
      the page of enriched rows with the fallback's count. */
  predicate FallbackReply(reply: Reply, s: Statements, names: Names, limit: int, offset: int, db: Database) {
    if db(s.main).Failed? then reply == ServerError(db(s.main).message)
    else if db(s.count).Failed? then reply == ServerError(db(s.count).message)
    else
      reply.PageReply? && reply.page.total == TotalOf(db(s.count).rows)
      && reply.page.limit == limit && reply.page.offset == offset
      && |reply.page.data| == |db(s.main).rows|
      && forall i :: 0 <= i < |reply.page.data| ==> Enriched(db(s.main).rows[i], reply.page.data[i], names, db)
  }

  /** The fallback statements are sent; when both succeed the rows are enriched. */
  method FallbackPage(s: Statements, names: Names, limit: int, offset: int, db: Database) returns (reply: Reply)
    ensures FallbackReply(reply, s, names, limit, offset, db)
  {
    var rows := db(s.main);
    var countResult := db(s.count);
    if rows.Failed? {
      reply := ServerError(rows.message);
    } else if countResult.Failed? {
      reply := ServerError(countResult.message);
    } else {
      var named, _ := EnrichRows(rows.rows, names, db);
      reply := PageReply(Page(named, TotalOf(countResult.rows), limit, offset));
    }
  }
}
