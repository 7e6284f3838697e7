/** The punishments endpoints (`player_punishments` on the `iga` pool): the paginated
    list with its JOIN and its JOIN-less fallback, the lookup by id, and the punishments
    of one SteamID. */
module Punishments {
  import opened Js
  import opened Sql
  import opened Listing

  /** Each punishment with the names of the punished player and of the admin. */
  const JoinSelect: string := "\n      SELECT\n" + "        pp.*,\n"
    + "        p.SteamName as player_name,\n" + "        a.SteamName as admin_name\n"
    + "      FROM player_punishments pp\n" + "      LEFT JOIN player p ON " + "pp.SteamID = p.SteamID\n"
    + "      LEFT JOIN player a ON " + "pp.A_SteamID = a.SteamID\n" + "    "

  /** The search condition of the JOIN statement. */
  const JoinColumns: seq<string> := ["pp.SteamID", "pp.A_SteamID", "pp.Reason", "pp.Punishment", "p.SteamName", "a.SteamName"]

  const CountSelect: string := "SELECT COUNT(*) " + "as total FROM " + "player_punishments"

  /** The search condition of the count statement, and of both fallback statements. */
  const PlainColumns: seq<string> := ["SteamID", "A_SteamID", "Reason", "Punishment"]

  const SimpleSelect: string := "SELECT * FROM " + "player_punishments"

  /** The list is always ordered by the time of the punishment. */
  const JoinColumn: string := "pp.Time"

  const SimpleColumn: string := "Time"

  function JoinOf(search: Option<string>, limit: int, offset: int): Statements {
    var p := SearchPattern(search);
    ListStatements(Iga, JoinSelect, LikeAny(JoinColumns), [p, p, p, p, p, p],
      CountSelect, LikeAny(PlainColumns), [p, p, p, p], search, JoinColumn, limit, offset)
  }

  function SimpleOf(search: Option<string>, limit: int, offset: int): Statements {
    var p := SearchPattern(search);
    ListStatements(Iga, SimpleSelect, LikeAny(PlainColumns), [p, p, p, p],
      CountSelect, LikeAny(PlainColumns), [p, p, p, p], search, SimpleColumn, limit, offset)
  }

  /** The JOIN statements: six `%search%` on the page statement and four on the count
      with a search, matching their placeholders; the page statement ends in the page
      tail ordered by `pp.Time`. */
  lemma JoinShape(search: Option<string>, limit: int, offset: int)
    ensures var s := JoinOf(search, limit, offset); s.main.pool == Iga && s.count.pool == Iga
    ensures var s := JoinOf(search, limit, offset); WellFormed(s.main) && WellFormed(s.count)
    ensures var s := JoinOf(search, limit, offset); Paged(s.main, JoinColumn, limit, offset)
  {
    var p := SearchPattern(search);
    ListShape(Iga, JoinSelect, LikeAny(JoinColumns), [p, p, p, p, p, p],
      CountSelect, LikeAny(PlainColumns), [p, p, p, p], search, JoinColumn, limit, offset);
  }

  /** The fallback statements: the same four-placeholder condition on both, ordered by
      `Time`. */
  lemma SimpleShape(search: Option<string>, limit: int, offset: int)
    ensures var s := SimpleOf(search, limit, offset); s.main.pool == Iga && s.count.pool == Iga
    ensures var s := SimpleOf(search, limit, offset); WellFormed(s.main) && WellFormed(s.count)
    ensures var s := SimpleOf(search, limit, offset); Paged(s.main, SimpleColumn, limit, offset)
  {
    var p := SearchPattern(search);
    ListShape(Iga, SimpleSelect, LikeAny(PlainColumns), [p, p, p, p],
      CountSelect, LikeAny(PlainColumns), [p, p, p, p], search, SimpleColumn, limit, offset);
  }

  /** `GET /punishments`: the JOIN statements, and when either is rejected the fallback
      statements with their rows enriched by the player and the admin name. */
  method List(search: Option<string>, limitParam: Option<int>, offsetParam: Option<int>, db: Database)
    returns (reply: Reply, join: Statements, fallback: Option<Statements>)
    ensures join == JoinOf(search, ParamOr(limitParam, 50), ParamOr(offsetParam, 0))
    ensures BothRows(db, join) ==> (fallback.None?
      && reply == PageReply(Page(db(join.main).rows, TotalOf(db(join.count).rows), ParamOr(limitParam, 50), ParamOr(offsetParam, 0))))
    ensures !BothRows(db, join) ==>
      (fallback == Some(SimpleOf(search, ParamOr(limitParam, 50), ParamOr(offsetParam, 0)))
      && FallbackReply(reply, fallback.value, PlayerAndAdmin, ParamOr(limitParam, 50), ParamOr(offsetParam, 0), db))
  {
    var limit := ParamOr(limitParam, 50);
    var offset := ParamOr(offsetParam, 0);
    var p := SearchPattern(search);
    join := BuildList(Iga, JoinSelect, LikeAny(JoinColumns), [p, p, p, p, p, p],
      CountSelect, LikeAny(PlainColumns), [p, p, p, p], search, JoinColumn, limit, offset);
    var punishments := db(join.main);
    var countResult := db(join.count);
    if punishments.Rows? && countResult.Rows? {
      fallback := None;
      reply := PageReply(Page(punishments.rows, TotalOf(countResult.rows), limit, offset));
    } else {
      var simple := BuildList(Iga, SimpleSelect, LikeAny(PlainColumns), [p, p, p, p],
        CountSelect, LikeAny(PlainColumns), [p, p, p, p], search, SimpleColumn, limit, offset);
      fallback := Some(simple);
      reply := FallbackPage(simple, PlayerAndAdmin, limit, offset, db);
    }
  }

  /** `SELECT * FROM player_punishments WHERE id = ?` */
  function ByIdQuery(id: string): (q: Query)
    ensures q.pool == Iga && WellFormed(q) && q.params == [VStr(id)]
  {
    Query(Iga, [Text("SELECT * FROM " + "player_punishments " + "WHERE id = "), Hole], [VStr(id)])
  }

  /** `GET /punishments/:id`: the first row or null, or 500. */
  function ById(id: string, db: Database): (reply: Reply)
    ensures db(ByIdQuery(id)).Failed? <==> reply.ServerError?
    ensures db(ByIdQuery(id)).Failed? ==> reply == ServerError(db(ByIdQuery(id)).message)
    ensures db(ByIdQuery(id)).Rows? ==> reply == RowReply(FirstRow(db(ByIdQuery(id)).rows))
  {
    RowOf(db(ByIdQuery(id)))
  }

  /** `SELECT * FROM player_punishments WHERE steamid = ? ORDER BY Time DESC` */
  function BySteamIdQuery(steamId: string): (q: Query)
    ensures q.pool == Iga && WellFormed(q) && q.params == [VStr(steamId)]
  {
    Query(Iga, [Text("SELECT * FROM " + "player_punishments " + "WHERE steamid = "), Hole, Text(" ORDER BY Time DESC")], [VStr(steamId)])
  }

  /** `GET /punishments/steamid/:steamId`: every matching row, or 500. */
  function BySteamId(steamId: string, db: Database): (reply: Reply)
    ensures db(BySteamIdQuery(steamId)).Failed? ==> reply == ServerError(db(BySteamIdQuery(steamId)).message)
    ensures db(BySteamIdQuery(steamId)).Rows? ==> reply == RowsReply(db(BySteamIdQuery(steamId)).rows)
  {
    RowsOf(db(BySteamIdQuery(steamId)))
  }
}
