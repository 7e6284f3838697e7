/** The leaderboards: tokens (behind the connection gate of the `tokens` pool), money,
    events (ordered by a column found in the live schema) and playtime. Each is a page
    statement without a search and a count statement without parameters. */
module Leaderboard {
  import opened Js
  import opened Sql
  import opened SchemaProbe
  import opened Listing

  /** `SELECT * FROM <table> ORDER BY <column> DESC LIMIT ? OFFSET ?` and its count. */
  function BoardOf(pool: Pool, table: string, column: string, limit: int, offset: int): Statements {
    ListStatements(pool, "SELECT * FROM " + table, [], [], "SELECT COUNT(*) " + "as total FROM " + table, [], [],
      None, column, limit, offset)
  }

  /** A leaderboard's statements go to its pool; the page statement ends in the page
      tail and carries only the limit and the offset; the count has no parameters. */
  lemma BoardShape(pool: Pool, table: string, column: string, limit: int, offset: int)
    ensures var s := BoardOf(pool, table, column, limit, offset);
      s.main.pool == pool && s.count.pool == pool && s.main.params == [VInt(limit), VInt(offset)] && s.count.params == []
    ensures var s := BoardOf(pool, table, column, limit, offset);
      WellFormed(s.main) && WellFormed(s.count) && Paged(s.main, column, limit, offset)
  {
    ListShape(pool, "SELECT * FROM " + table, [], [], "SELECT COUNT(*) " + "as total FROM " + table, [], [],
      None, column, limit, offset);
  }

  /** The answer of a leaderboard: the page with the limit and offset as given (100 and 0
      by default), or 500. */
  method Board(pool: Pool, table: string, column: string, limitParam: Option<int>, offsetParam: Option<int>, db: Database)
    returns (reply: Reply, s: Statements)
    ensures s == BoardOf(pool, table, column, ParamOr(limitParam, 100), ParamOr(offsetParam, 0))
    ensures reply == PageOf(db(s.main), db(s.count), ParamOr(limitParam, 100), ParamOr(offsetParam, 0))
  {
    var limit := ParamOr(limitParam, 100);
    var offset := ParamOr(offsetParam, 0);
    s := BuildList(pool, "SELECT * FROM " + table, [], [], "SELECT COUNT(*) " + "as total FROM " + table, [], [],
      None, column, limit, offset);
    reply := PageOf(db(s.main), db(s.count), limit, offset);
  }

  const TokensDown: string := "Database \"Infamous_token\" " + "is not available. " + "Please check connection " + "and permissions."

  /** `GET /leaderboard/tokens`: 503 without any statement unless the `tokens` pool is
      connected; otherwise the `roasts_tokens` board by `tokens`. */
  method TokensBoard(status: map<string, string>, limitParam: Option<int>, offsetParam: Option<int>, db: Database)
    returns (reply: Reply, s: Option<Statements>)
    ensures !Connected(status, "tokens") ==> reply == Unavailable(TokensDown, None) && s.None?
    ensures Connected(status, "tokens") ==>
      s == Some(BoardOf(Tokens, "roasts_tokens", "tokens", ParamOr(limitParam, 100), ParamOr(offsetParam, 0)))
      && reply == PageOf(db(s.value.main), db(s.value.count), ParamOr(limitParam, 100), ParamOr(offsetParam, 0))
  {
    if !Connected(status, "tokens") {
      reply := Unavailable(TokensDown, None);
      s := None;
      return;
    }
    var board;
    reply, board := Board(Tokens, "roasts_tokens", "tokens", limitParam, offsetParam, db);
    s := Some(board);
  }

  /** `GET /leaderboard/money`: `darkrp_player` by `money`, without a gate. */
  method MoneyBoard(limitParam: Option<int>, offsetParam: Option<int>, db: Database) returns (reply: Reply, s: Statements)
    ensures s == BoardOf(Darkrp, "darkrp_player", "money", ParamOr(limitParam, 100), ParamOr(offsetParam, 0))
    ensures reply == PageOf(db(s.main), db(s.count), ParamOr(limitParam, 100), ParamOr(offsetParam, 0))
  {
    reply, s := Board(Darkrp, "darkrp_player", "money", limitParam, offsetParam, db);
  }

  /** The order columns of the events board, in no particular priority. */
  const EventCandidates: seq<string> := ["id", "event_id", "timestamp", "date", "created_at"]

  /** `foundColumn?.Field || columns[0]?.Field || 'id'`, and `'id'` when the probe failed. */
  function EventColumn(probe: Probe): (column: string)
    ensures column != ""
    ensures probe.None? ==> column == "id"
  {
    LiveOrderOr(probe, EventCandidates, "id")
  }

  /** `GET /leaderboard/events`: `event_winners` by the live order column. */
  method EventsBoard(limitParam: Option<int>, offsetParam: Option<int>, probe: Probe, db: Database) returns (reply: Reply, s: Statements)
    ensures s == BoardOf(Darkrp, "event_winners", EventColumn(probe), ParamOr(limitParam, 100), ParamOr(offsetParam, 0))
    ensures reply == PageOf(db(s.main), db(s.count), ParamOr(limitParam, 100), ParamOr(offsetParam, 0))
  {
    var orderBy := "id";
    if probe.Some? {
      orderBy := EventColumn(probe);
    }
    reply, s := Board(Darkrp, "event_winners", orderBy, limitParam, offsetParam, db);
  }

  /** `GET /leaderboard/playtime`: `player` by `playtime`. */
  method PlaytimeBoard(limitParam: Option<int>, offsetParam: Option<int>, db: Database) returns (reply: Reply, s: Statements)
    ensures s == BoardOf(Iga, "player", "playtime", ParamOr(limitParam, 100), ParamOr(offsetParam, 0))
    ensures reply == PageOf(db(s.main), db(s.count), ParamOr(limitParam, 100), ParamOr(offsetParam, 0))
  {
    reply, s := Board(Iga, "player", "playtime", limitParam, offsetParam, db);
  }
}
