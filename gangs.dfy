/** The gangs endpoints (`gangs` on the `server` pool): the paginated list ordered by a
    column found in the live schema, and the lookup by id. */
module Gangs {
  import opened Js
  import opened Sql
  import opened SchemaProbe
  import opened Listing

  /** The order columns the list looks for, in no particular priority. */
  const OrderCandidates: seq<string> := ["id", "elo", "prestige", "level", "power", "credits", "members"]

  const Select: string := "SELECT * FROM " + "gangs"

  const CountSelect: string := "SELECT COUNT(*) " + "as total FROM " + "gangs"

  /** The search condition, the same on both statements. */
  const SearchColumns: seq<string> := ["name"]

  /** `foundColumn?.Field || columns[0]?.Field || 'id'`, and `'id'` when the probe was
      rejected. */
  function OrderColumn(probe: Probe): (column: string)
    ensures column != ""
    ensures probe.None? ==> column == "id"
  {
    LiveOrderOr(probe, OrderCandidates, "id")
  }

  function StatementsOf(search: Option<string>, probe: Probe, limit: int, offset: int): Statements {
    var p := SearchPattern(search);
    ListStatements(Server, Select, LikeAny(SearchColumns), [p],
      CountSelect, LikeAny(SearchColumns), [p], search, OrderColumn(probe), limit, offset)
  }

  /** Both statements go to the `server` pool, are well formed, and the page statement
      ends in ` ORDER BY <live column> DESC LIMIT ? OFFSET ?`. */
  lemma Shape(search: Option<string>, probe: Probe, limit: int, offset: int)
    ensures var s := StatementsOf(search, probe, limit, offset); s.main.pool == Server && s.count.pool == Server
    ensures var s := StatementsOf(search, probe, limit, offset); WellFormed(s.main) && WellFormed(s.count)
    ensures var s := StatementsOf(search, probe, limit, offset); Paged(s.main, OrderColumn(probe), limit, offset)
  {
    var p := SearchPattern(search);
    ListShape(Server, Select, LikeAny(SearchColumns), [p],
      CountSelect, LikeAny(SearchColumns), [p], search, OrderColumn(probe), limit, offset);
  }

  /** `GET /gangs`: the page and its count, or 500 when either is rejected. */
  method List(search: Option<string>, limitParam: Option<int>, offsetParam: Option<int>, probe: Probe, db: Database)
    returns (reply: Reply, s: Statements)
    ensures s == StatementsOf(search, probe, ParamOr(limitParam, 50), ParamOr(offsetParam, 0))
    ensures reply == PageOf(db(s.main), db(s.count), ParamOr(limitParam, 50), ParamOr(offsetParam, 0))
  {
    var limit := ParamOr(limitParam, 50);
    var offset := ParamOr(offsetParam, 0);
    var p := SearchPattern(search);
    s := BuildList(Server, Select, LikeAny(SearchColumns), [p],
      CountSelect, LikeAny(SearchColumns), [p], search, OrderColumn(probe), limit, offset);
    reply := PageOf(db(s.main), db(s.count), limit, offset);
  }

  /** `SELECT * FROM gangs WHERE id = ?` */
  function ByIdQuery(id: string): (q: Query)
    ensures q.pool == Server && WellFormed(q) && q.params == [VStr(id)]
  {
    Query(Server, [Text("SELECT * FROM " + "gangs WHERE id = "), Hole], [VStr(id)])
  }

  /** `GET /gangs/:id`: the first row or null, or 500. */
  function ById(id: string, db: Database): (reply: Reply)
    ensures db(ByIdQuery(id)).Failed? <==> reply.ServerError?
    ensures db(ByIdQuery(id)).Failed? ==> reply == ServerError(db(ByIdQuery(id)).message)
    ensures db(ByIdQuery(id)).Rows? ==> reply == RowReply(FirstRow(db(ByIdQuery(id)).rows))
  {
    RowOf(db(ByIdQuery(id)))
  }
}
