/** The earners endpoints (`darkrp_player` on the `darkrp` pool), behind the connection
    gate of that pool: the paginated list, whose money, name and SteamID columns are
    chosen from the live schema by candidate priority, and the record of one SteamID. */
module Earners {
  import opened Js
  import opened Sql
  import opened SchemaProbe
  import opened Listing

  const MoneyCandidates: seq<string> := ["money", "total_money", "earned", "wallet", "cash", "total"]
  const NameCandidates: seq<string> := ["name", "playername", "nickname", "username"]
  const SteamIdCandidates: seq<string> := ["steamid", "steam_id", "steamid64"]

  const Select: string := "SELECT * FROM " + "darkrp_player"
  const CountSelect: string := "SELECT COUNT(*) " + "as total FROM " + "darkrp_player"

  const Down: string := "Database \"infamous_darkrp\" " + "is not available. " + "Please check connection " + "and permissions."

  /** The 503 answer when the `darkrp` pool is not connected: its status, or
      `'Connection status unknown'` when that is missing or empty. */
  function Unconnected(status: map<string, string>): (reply: Reply)
    ensures reply.Unavailable? && reply.error == Down && reply.details.Some?
    ensures "darkrp" in status && status["darkrp"] != "" ==> reply.details == Some(status["darkrp"])
    ensures !("darkrp" in status && status["darkrp"] != "") ==> reply.details == Some("Connection status unknown")
  {
    var details := if "darkrp" in status then Some(status["darkrp"]) else None;
    FirstPresentPair(details, Some("Connection status unknown"));
    Unavailable(Down, Some(FirstPresentOr([details], "Connection status unknown")))
  }

  /** The columns the list works with: the money column it orders by, and the name and
      SteamID columns it may search. */
  datatype Columns = Columns(money: string, name: Option<string>, steamId: Option<string>)

  /** The columns by candidate priority from the first probe, and, when no money
      candidate matched, the numeric fallback from the second. */
  function ColumnsOf(probe: Probe, moneyProbe: Probe): Columns {
    var money := if probe.Some? then PriorityMatch(probe.value, MoneyCandidates) else None;
    var name := if probe.Some? then PriorityMatch(probe.value, NameCandidates) else None;
    var steamId := if probe.Some? then PriorityMatch(probe.value, SteamIdCandidates) else None;
    Columns(if Present(money) then money.value else NumericFallback(moneyProbe), name, steamId)
  }

  /** The three `for … of` loops over the candidates, then the numeric fallback when no
      money column was found (`if (!moneyColumn)`). */
  method FindColumns(probe: Probe, moneyProbe: Probe) returns (columns: Columns)
    ensures columns == ColumnsOf(probe, moneyProbe)
  {
    var money: Option<string> := None;
    var name: Option<string> := None;
    var steamId: Option<string> := None;
    if probe.Some? {
      money := SelectByPriority(probe.value, MoneyCandidates);
      name := SelectByPriority(probe.value, NameCandidates);
      steamId := SelectByPriority(probe.value, SteamIdCandidates);
    }
    var moneyColumn: string;
    if !Present(money) {
      moneyColumn := NumericFallback(moneyProbe);
    } else {
      moneyColumn := money.value;
    }
    columns := Columns(moneyColumn, name, steamId);
  }

  /** Some live column is spelled `field` and answers to one of the candidates. */
  predicate LiveColumn(columns: seq<Column>, field: string, candidates: seq<string>) {
    exists j :: 0 <= j < |columns| && columns[j].field == field && Lower(columns[j].field) in candidates
  }

  /** A column found by a candidate is a live column whose lower-cased name is that
      candidate, and so never empty. */
  lemma {:induction false} MatchIsLive(columns: seq<Column>, candidates: seq<string>)
    requires "" !in candidates
    ensures PriorityMatch(columns, candidates).Some? ==> LiveColumn(columns, PriorityMatch(columns, candidates).value, candidates)
    ensures PriorityMatch(columns, candidates).Some? ==> PriorityMatch(columns, candidates).value != ""
  {
    var r := PriorityMatch(columns, candidates);
    if r.Some? {
      var i :| 0 <= i < |candidates| && FindByName(columns, candidates[i]).Some?
        && r.value == columns[FindByName(columns, candidates[i]).value].field;
      var j := FindByName(columns, candidates[i]).value;
      assert Lower(columns[j].field) == candidates[i];
      assert |columns[j].field| == |candidates[i]|;
    }
  }

  /** The money column is never empty: the matched candidate's live spelling, else the
      numeric fallback; a name or SteamID column, when there is one, is a live column
      answering to one of its candidates. */
  lemma ColumnsChosen(probe: Probe, moneyProbe: Probe)
    ensures ColumnsOf(probe, moneyProbe).money != ""
    ensures probe.Some? && PriorityMatch(probe.value, MoneyCandidates).Some? ==>
      ColumnsOf(probe, moneyProbe).money == PriorityMatch(probe.value, MoneyCandidates).value
    ensures probe.None? || PriorityMatch(probe.value, MoneyCandidates).None? ==>
      ColumnsOf(probe, moneyProbe).money == NumericFallback(moneyProbe)
    ensures ColumnsOf(probe, moneyProbe).name.Some? ==>
      probe.Some? && LiveColumn(probe.value, ColumnsOf(probe, moneyProbe).name.value, NameCandidates)
    ensures ColumnsOf(probe, moneyProbe).steamId.Some? ==>
      probe.Some? && LiveColumn(probe.value, ColumnsOf(probe, moneyProbe).steamId.value, SteamIdCandidates)
  {
    if probe.Some? {
      MatchIsLive(probe.value, MoneyCandidates);
      MatchIsLive(probe.value, NameCandidates);
      MatchIsLive(probe.value, SteamIdCandidates);
    }
  }

  /** The columns the search conditions name, the SteamID column before the name column. */
  function SearchColumns(columns: Columns): seq<string> {
    (if Present(columns.steamId) then [columns.steamId.value] else [])
    + (if Present(columns.name) then [columns.name.value] else [])
  }

  /** One `%search%` per search condition, pushed in the same order. */
  function SearchParams(columns: Columns, p: Value): (params: seq<Value>)
    ensures |params| == |SearchColumns(columns)|
    ensures forall i :: 0 <= i < |params| ==> params[i] == p
  {
    (if Present(columns.steamId) then [p] else []) + (if Present(columns.name) then [p] else [])
  }

  /** ` WHERE a LIKE ? OR b LIKE ?` over the found columns, and nothing when none was
      found. */
  function Condition(searchColumns: seq<string>): (cond: Sql)
    ensures Holes(cond) == |searchColumns|
    ensures searchColumns == [] ==> cond == []
  {
    if searchColumns == [] then [] else LikeAny(searchColumns)
  }

  function StatementsOf(search: Option<string>, columns: Columns, limit: int, offset: int): Statements {
    var p := SearchPattern(search);
    var pushed := SearchParams(columns, p);
    ListStatements(Darkrp, Select, Condition(SearchColumns(columns)), pushed,
      CountSelect, Condition(SearchColumns(columns)), pushed, search, columns.money, limit, offset)
  }

  /** Both statements are well formed, carry one `%search%` per found column and the same
      condition, and the page statement ends ordered by the money column. */
  lemma Shape(search: Option<string>, columns: Columns, limit: int, offset: int)
    ensures var s := StatementsOf(search, columns, limit, offset); s.main.pool == Darkrp && s.count.pool == Darkrp
    ensures var s := StatementsOf(search, columns, limit, offset); WellFormed(s.main) && WellFormed(s.count)
    ensures var s := StatementsOf(search, columns, limit, offset); Paged(s.main, columns.money, limit, offset)
    ensures var s := StatementsOf(search, columns, limit, offset);
      Present(search) ==> s.count.sql == [Text(CountSelect)] + Condition(SearchColumns(columns))
    ensures var s := StatementsOf(search, columns, limit, offset);
      Present(search) ==> s.count.params == SearchParams(columns, Pattern(search.value))
  {
    var p := SearchPattern(search);
    var pushed := SearchParams(columns, p);
    ListShape(Darkrp, Select, Condition(SearchColumns(columns)), pushed,
      CountSelect, Condition(SearchColumns(columns)), pushed, search, columns.money, limit, offset);
  }

  /** With a search but neither a name nor a SteamID column, no condition is added. */
  lemma NoColumnNoWhere(search: Option<string>, columns: Columns, limit: int, offset: int)
    requires !Present(columns.name) && !Present(columns.steamId)
    ensures var s := StatementsOf(search, columns, limit, offset);
      s.main.sql == [Text(Select)] + PageTail(columns.money) && s.count.sql == [Text(CountSelect)]
      && s.main.params == [VInt(limit), VInt(offset)] && s.count.params == []
  {
    assert SearchColumns(columns) == [];
    assert SearchParams(columns, SearchPattern(search)) == [];
    assert Where(search, Select, []) == [Text(Select)];
  }

  /** The `if (search)` block: one condition and one `%search%` per found column, the
      SteamID column first. */
  method SearchParts(search: Option<string>, columns: Columns) returns (conditions: seq<string>, pushed: seq<Value>)
    ensures Present(search) ==> conditions == SearchColumns(columns) && pushed == SearchParams(columns, SearchPattern(search))
    ensures !Present(search) ==> conditions == [] && pushed == []
  {
    conditions := [];
    pushed := [];
    if Present(search) {
      var pattern := Pattern(search.value);
      if Present(columns.steamId) {
        conditions := conditions + [columns.steamId.value];
        pushed := pushed + [pattern];
      }
      if Present(columns.name) {
        conditions := conditions + [columns.name.value];
        pushed := pushed + [pattern];
      }
    }
  }

  /** `GET /earners`: 503 without any statement when the pool is not connected; otherwise
      the page of the statements built from the probed columns, or 500. */
  method List(status: map<string, string>, search: Option<string>, limitParam: Option<int>, offsetParam: Option<int>,
              probe: Probe, moneyProbe: Probe, db: Database)
    returns (reply: Reply, s: Option<Statements>)
    ensures !Connected(status, "darkrp") ==> reply == Unconnected(status) && s.None?
    ensures Connected(status, "darkrp") ==>
      s == Some(StatementsOf(search, ColumnsOf(probe, moneyProbe), ParamOr(limitParam, 50), ParamOr(offsetParam, 0)))
      && reply == PageOf(db(s.value.main), db(s.value.count), ParamOr(limitParam, 50), ParamOr(offsetParam, 0))
  {
    if !Connected(status, "darkrp") {
      reply := Unconnected(status);
      s := None;
      return;
    }
    var limit := ParamOr(limitParam, 50);
    var offset := ParamOr(offsetParam, 0);
    var columns := FindColumns(probe, moneyProbe);
    var conditions, pushed := SearchParts(search, columns);
    var statements := BuildList(Darkrp, Select, Condition(conditions), pushed,
      CountSelect, Condition(conditions), pushed, search, columns.money, limit, offset);
    s := Some(statements);
    reply := PageOf(db(statements.main), db(statements.count), limit, offset);
  }

  /** `SELECT * FROM darkrp_player WHERE SteamID = ?` */
  function BySteamIdQuery(steamId: string): (q: Query)
    ensures q.pool == Darkrp && WellFormed(q) && q.params == [VStr(steamId)]
  {
    Query(Darkrp, [Text("SELECT * FROM " + "darkrp_player " + "WHERE SteamID = "), Hole], [VStr(steamId)])
  }

  /** `GET /earners/steamid/:steamId`: 503 when the pool is not connected, otherwise the
      first record or null, or 500. */
  function BySteamId(status: map<string, string>, steamId: string, db: Database): (reply: Reply)
    ensures !Connected(status, "darkrp") ==> reply == Unconnected(status)
    ensures Connected(status, "darkrp") && db(BySteamIdQuery(steamId)).Failed? ==> reply == ServerError(db(BySteamIdQuery(steamId)).message)
    ensures Connected(status, "darkrp") && db(BySteamIdQuery(steamId)).Rows? ==> reply == RowReply(FirstRow(db(BySteamIdQuery(steamId)).rows))
  {
    if !Connected(status, "darkrp") then Unconnected(status) else RowOf(db(BySteamIdQuery(steamId)))
  }
}
