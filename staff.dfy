/** The staff endpoints (`od_times` on the `iga` pool): the paginated list of staff
    time with its JOIN on the player table and its JOIN-less fallback, and the record of
    one SteamID. */
module Staff {
  import opened Js
  import opened Sql
  import opened Listing

  /** Each record with the player's name, rank, time played and first join. */
  const JoinSelect: string := "\n      SELECT\n" + "        ot.*,\n"
    + "        p.SteamName as player_name,\n" + "        p.Rank as rank,\n"
    + "        p.TimePlayed as time_played,\n" + "        p.FirstJoined as first_joined\n"
    + "      FROM od_times ot\n" + "      LEFT JOIN player p ON " + "ot.SteamID = p.SteamID\n" + "    "

  /** The search condition of the JOIN statement. */
  const JoinColumns: seq<string> := ["ot.SteamID", "p.SteamName"]

  const CountSelect: string := "SELECT COUNT(*) " + "as total FROM " + "od_times"

  /** The search condition of the count statement, and of both fallback statements. */
  const PlainColumns: seq<string> := ["SteamID"]

  const SimpleSelect: string := "SELECT * FROM " + "od_times"

  /** The list is ordered by the minutes served. */
  const JoinColumn: string := "ot.Minutes"

  const SimpleColumn: string := "Minutes"

  function JoinOf(search: Option<string>, limit: int, offset: int): Statements {
    var p := SearchPattern(search);
    ListStatements(Iga, JoinSelect, LikeAny(JoinColumns), [p, p],
      CountSelect, LikeAny(PlainColumns), [p], search, JoinColumn, limit, offset)
  }

  function SimpleOf(search: Option<string>, limit: int, offset: int): Statements {
    var p := SearchPattern(search);
    ListStatements(Iga, SimpleSelect, LikeAny(PlainColumns), [p],
      CountSelect, LikeAny(PlainColumns), [p], search, SimpleColumn, limit, offset)
  }

  /** The JOIN statements: two `%search%` on the page statement and one on the count with
      a search, matching their placeholders; ordered by `ot.Minutes`. */
  lemma JoinShape(search: Option<string>, limit: int, offset: int)
    ensures var s := JoinOf(search, limit, offset); s.main.pool == Iga && s.count.pool == Iga
    ensures var s := JoinOf(search, limit, offset); WellFormed(s.main) && WellFormed(s.count)
    ensures var s := JoinOf(search, limit, offset); Paged(s.main, JoinColumn, limit, offset)
  {
    var p := SearchPattern(search);
    ListShape(Iga, JoinSelect, LikeAny(JoinColumns), [p, p],
      CountSelect, LikeAny(PlainColumns), [p], search, JoinColumn, limit, offset);
  }

  /** The fallback statements: the same one-placeholder condition on both, ordered by
      `Minutes`. */
  lemma SimpleShape(search: Option<string>, limit: int, offset: int)
    ensures var s := SimpleOf(search, limit, offset); s.main.pool == Iga && s.count.pool == Iga
    ensures var s := SimpleOf(search, limit, offset); WellFormed(s.main) && WellFormed(s.count)
    ensures var s := SimpleOf(search, limit, offset); Paged(s.main, SimpleColumn, limit, offset)
  {
    var p := SearchPattern(search);
    ListShape(Iga, SimpleSelect, LikeAny(PlainColumns), [p],
      CountSelect, LikeAny(PlainColumns), [p], search, SimpleColumn, limit, offset);
  }

  /** `GET /staff`: the JOIN statements, and when either is rejected the fallback
      statements with their rows enriched by the player name only. */
  method List(search: Option<string>, limitParam: Option<int>, offsetParam: Option<int>, db: Database)
    returns (reply: Reply, join: Statements, fallback: Option<Statements>)
    ensures join == JoinOf(search, ParamOr(limitParam, 50), ParamOr(offsetParam, 0))
    ensures BothRows(db, join) ==> (fallback.None?
      && reply == PageReply(Page(db(join.main).rows, TotalOf(db(join.count).rows), ParamOr(limitParam, 50), ParamOr(offsetParam, 0))))
    ensures !BothRows(db, join) ==>
      (fallback == Some(SimpleOf(search, ParamOr(limitParam, 50), ParamOr(offsetParam, 0)))
      && FallbackReply(reply, fallback.value, PlayerOnly, ParamOr(limitParam, 50), ParamOr(offsetParam, 0), db))
  {
    var limit := ParamOr(limitParam, 50);
    var offset := ParamOr(offsetParam, 0);
    var p := SearchPattern(search);
    join := BuildList(Iga, JoinSelect, LikeAny(JoinColumns), [p, p],
      CountSelect, LikeAny(PlainColumns), [p], search, JoinColumn, limit, offset);
    var staff := db(join.main);
    var countResult := db(join.count);
    if staff.Rows? && countResult.Rows? {
      fallback := None;
      reply := PageReply(Page(staff.rows, TotalOf(countResult.rows), limit, offset));
    } else {
      var simple := BuildList(Iga, SimpleSelect, LikeAny(PlainColumns), [p],
        CountSelect, LikeAny(PlainColumns), [p], search, SimpleColumn, limit, offset);
      fallback := Some(simple);
      reply := FallbackPage(simple, PlayerOnly, limit, offset, db);
    }
  }

  /** `SELECT * FROM od_times WHERE SteamID = ?` */
  function BySteamIdQuery(steamId: string): (q: Query)
    ensures q.pool == Iga && WellFormed(q) && q.params == [VStr(steamId)]
  {
    Query(Iga, [Text("SELECT * FROM " + "od_times " + "WHERE SteamID = "), Hole], [VStr(steamId)])
  }

  /** `GET /staff/steamid/:steamId`: the first record or null, or 500. */
  function BySteamId(steamId: string, db: Database): (reply: Reply)
    ensures db(BySteamIdQuery(steamId)).Failed? <==> reply.ServerError?
    ensures db(BySteamIdQuery(steamId)).Failed? ==> reply == ServerError(db(BySteamIdQuery(steamId)).message)
    ensures db(BySteamIdQuery(steamId)).Rows? ==> reply == RowReply(FirstRow(db(BySteamIdQuery(steamId)).rows))
  {
    RowOf(db(BySteamIdQuery(steamId)))
  }
}
