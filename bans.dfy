/** The bans endpoints (`player_bans` on the `iga` pool): the paginated list with its
    JOIN on the player table and its JOIN-less fallback, the lookup by id, and the bans
    of one SteamID. */
module Bans {
  import opened Js
  import opened Sql
  import opened SchemaProbe
  import opened Listing

  /** The order columns the list looks for, in no particular priority. */
  const OrderCandidates: seq<string> := ["bid", "ban_id", "id", "timestamp", "date", "time", "created_at"]

  /** Each ban with the names of the banned player and of the admin. */
  const JoinSelect: string := "\n      SELECT\n" + "        pb.*,\n"
    + "        p.SteamName as player_name,\n" + "        a.SteamName as admin_name\n"
    + "      FROM player_bans pb\n" + "      LEFT JOIN player p ON " + "pb.SteamID = p.SteamID\n"
    + "      LEFT JOIN player a ON " + "pb.A_SteamID = a.SteamID\n" + "    "

  /** The search condition of the JOIN statement. */
  const JoinColumns: seq<string> := ["pb.SteamID", "pb.A_SteamID", "pb.Reason", "p.SteamName", "a.SteamName"]

  const CountSelect: string := "SELECT COUNT(*) " + "as total FROM " + "player_bans"

  /** The search condition of the count statement, and of both fallback statements. */
  const PlainColumns: seq<string> := ["SteamID", "A_SteamID", "Reason"]

  const SimpleSelect: string := "SELECT * FROM " + "player_bans"

  /** `foundColumn?.Field || columns[0]?.Field`, null when the probe was rejected. */
  function OrderColumn(probe: Probe): Option<string> {
    LiveOrderColumn(probe, OrderCandidates)
  }

  /** The column the JOIN statement orders by: `pb.${orderByColumn}`, else `pb.Time`. */
  function JoinColumn(orderBy: Option<string>): string {
    if Present(orderBy) then "pb." + orderBy.value else "pb.Time"
  }

  /** The column the fallback orders by: `${orderByColumn}`, else `Time`. */
  function SimpleColumn(orderBy: Option<string>): string {
    if Present(orderBy) then orderBy.value else "Time"
  }

  function JoinOf(search: Option<string>, orderBy: Option<string>, limit: int, offset: int): Statements {
    var p := SearchPattern(search);
    ListStatements(Iga, JoinSelect, LikeAny(JoinColumns), [p, p, p, p, p],
      CountSelect, LikeAny(PlainColumns), [p, p, p], search, JoinColumn(orderBy), limit, offset)
  }

  function SimpleOf(search: Option<string>, orderBy: Option<string>, limit: int, offset: int): Statements {
    var p := SearchPattern(search);
    ListStatements(Iga, SimpleSelect, LikeAny(PlainColumns), [p, p, p],
      CountSelect, LikeAny(PlainColumns), [p, p, p], search, SimpleColumn(orderBy), limit, offset)
  }

  /** The JOIN statements: both are well formed (five `%search%` on the page statement
      and three on the count with a search, none without), and the page statement ends in
      the page tail with the limit and the offset last. */
  lemma JoinShape(search: Option<string>, orderBy: Option<string>, limit: int, offset: int)
    ensures var s := JoinOf(search, orderBy, limit, offset); s.main.pool == Iga && s.count.pool == Iga
    ensures var s := JoinOf(search, orderBy, limit, offset); WellFormed(s.main) && WellFormed(s.count)
    ensures var s := JoinOf(search, orderBy, limit, offset); Paged(s.main, JoinColumn(orderBy), limit, offset)
  {
    var p := SearchPattern(search);
    ListShape(Iga, JoinSelect, LikeAny(JoinColumns), [p, p, p, p, p],
      CountSelect, LikeAny(PlainColumns), [p, p, p], search, JoinColumn(orderBy), limit, offset);
  }

  /** The fallback statements: the same three-placeholder condition on both, so both are
      well formed; the page statement ends in the page tail. */
  lemma SimpleShape(search: Option<string>, orderBy: Option<string>, limit: int, offset: int)
    ensures var s := SimpleOf(search, orderBy, limit, offset); s.main.pool == Iga && s.count.pool == Iga
    ensures var s := SimpleOf(search, orderBy, limit, offset); WellFormed(s.main) && WellFormed(s.count)
    ensures var s := SimpleOf(search, orderBy, limit, offset); Paged(s.main, SimpleColumn(orderBy), limit, offset)
  {
    var p := SearchPattern(search);
    ListShape(Iga, SimpleSelect, LikeAny(PlainColumns), [p, p, p],
      CountSelect, LikeAny(PlainColumns), [p, p, p], search, SimpleColumn(orderBy), limit, offset);
  }

  /** `GET /bans`: the JOIN statements, and when either is rejected the fallback
      statements with their rows enriched by name. */
  method List(search: Option<string>, limitParam: Option<int>, offsetParam: Option<int>, probe: Probe, db: Database)
    returns (reply: Reply, join: Statements, fallback: Option<Statements>)
    ensures join == JoinOf(search, OrderColumn(probe), ParamOr(limitParam, 50), ParamOr(offsetParam, 0))
    ensures BothRows(db, join) ==> (fallback.None?
      && reply == PageReply(Page(db(join.main).rows, TotalOf(db(join.count).rows), ParamOr(limitParam, 50), ParamOr(offsetParam, 0))))
    ensures !BothRows(db, join) ==>
      (fallback == Some(SimpleOf(search, OrderColumn(probe), ParamOr(limitParam, 50), ParamOr(offsetParam, 0)))
      && FallbackReply(reply, fallback.value, PlayerAndAdmin, ParamOr(limitParam, 50), ParamOr(offsetParam, 0), db))
  {
    var limit := ParamOr(limitParam, 50);
    var offset := ParamOr(offsetParam, 0);
    var orderBy := OrderColumn(probe);
    var p := SearchPattern(search);
    join := BuildList(Iga, JoinSelect, LikeAny(JoinColumns), [p, p, p, p, p],
      CountSelect, LikeAny(PlainColumns), [p, p, p], search, JoinColumn(orderBy), limit, offset);
    var bans := db(join.main);
    var countResult := db(join.count);
    if bans.Rows? && countResult.Rows? {
      fallback := None;
      reply := PageReply(Page(bans.rows, TotalOf(countResult.rows), limit, offset));
    } else {
      var simple := BuildList(Iga, SimpleSelect, LikeAny(PlainColumns), [p, p, p],
        CountSelect, LikeAny(PlainColumns), [p, p, p], search, SimpleColumn(orderBy), limit, offset);
      fallback := Some(simple);
      reply := FallbackPage(simple, PlayerAndAdmin, limit, offset, db);
    }
  }

  /** `SELECT * FROM player_bans WHERE ${column} = ?` */
  function ByColumn(column: string, id: string): Query {
    Query(Iga, [Text("SELECT * FROM " + "player_bans WHERE " + column + " = "), Hole], [VStr(id)])
  }

  /** The statements `GET /bans/:id` may try, in order. */
  function IdChain(id: string): seq<Query> {
    [ByColumn("bid", id), ByColumn("ban_id", id), ByColumn("id", id)]
  }

  /** `GET /bans/:id`: `bid`, then `ban_id`, then `id`, moving on only when the
      statement is rejected; the first row or null, and 500 once all three fail. */
  method ById(id: string, db: Database) returns (reply: Reply, tried: seq<Query>)
    ensures 1 <= |tried| <= 3 && tried == IdChain(id)[..|tried|]
    ensures forall k :: 0 <= k < |tried| - 1 ==> db(tried[k]).Failed?
    ensures db(tried[|tried| - 1]).Rows? ==> reply == RowReply(FirstRow(db(tried[|tried| - 1]).rows))
    ensures db(tried[|tried| - 1]).Failed? ==> |tried| == 3 && reply == ServerError(db(tried[2]).message)
  {
    var byBid := db(ByColumn("bid", id));
    if byBid.Rows? {
      tried := [ByColumn("bid", id)];
      reply := RowReply(FirstRow(byBid.rows));
      return;
    }
    var byBanId := db(ByColumn("ban_id", id));
    if byBanId.Rows? {
      tried := [ByColumn("bid", id), ByColumn("ban_id", id)];
      reply := RowReply(FirstRow(byBanId.rows));
      return;
    }
    tried := IdChain(id);
    var byId := db(ByColumn("id", id));
    if byId.Rows? {
      reply := RowReply(FirstRow(byId.rows));
    } else {
      reply := ServerError(byId.message);
    }
  }

  /** The statement of `GET /bans/steamid/:steamId`: the appended ` ORDER BY bid DESC`
      cannot throw, so the other two orderings of its catch chain are never used. */
  method BySteamIdQuery(steamId: string) returns (q: Query)
    ensures q.pool == Iga && WellFormed(q) && q.params == [VStr(steamId)]
    ensures |q.sql| == 3 && q.sql[2] == Text(" ORDER BY bid DESC")
    ensures q.sql[..2] == [Text("SELECT * FROM " + "player_bans WHERE steamid = "), Hole]
  {
    var query := [Text("SELECT * FROM " + "player_bans WHERE steamid = "), Hole];
    query := query + [Text(" ORDER BY bid DESC")];
    q := Query(Iga, query, [VStr(steamId)]);
  }

  /** `GET /bans/steamid/:steamId`: every matching row, or 500. */
  method BySteamId(steamId: string, db: Database) returns (reply: Reply, q: Query)
    ensures |q.sql| > 0 && q.sql[|q.sql| - 1] == Text(" ORDER BY bid DESC") && q.params == [VStr(steamId)]
    ensures db(q).Rows? ==> reply == RowsReply(db(q).rows)
    ensures db(q).Failed? ==> reply == ServerError(db(q).message)
  {
    q := BySteamIdQuery(steamId);
    var bans := db(q);
    if bans.Rows? {
      reply := RowsReply(bans.rows);
    } else {
      reply := ServerError(bans.message);
    }
  }
}
