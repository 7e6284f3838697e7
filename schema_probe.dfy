/** Choosing a column of a live table from the rows of `SHOW COLUMNS`. The routes use
    two different rules: earners walks its candidate names in order and takes the first
    one the table has (candidate priority); bans, gangs and the events leaderboard take
    the first live column whose name is any candidate (live order). */
module SchemaProbe {
  import opened Js

  /** The two fields of a `SHOW COLUMNS` row the routes read. */
  datatype Column = Column(field: string, colType: string)

  /** The outcome of `await db.query(pool, 'SHOW COLUMNS FROM t')`: the columns in the
      order the server lists them, or None when the statement was rejected. */
  type Probe = Option<seq<Column>>

  predicate Named(c: Column, name: string) {
    Lower(c.field) == name
  }

  /** `columns.find((c) => c.Field.toLowerCase() === name)`, as an index. */
  function FindByName(columns: seq<Column>, name: string): (r: Option<nat>)
    ensures r.Some? ==> r.value < |columns| && Named(columns[r.value], name)
    ensures r.Some? ==> forall j :: 0 <= j < r.value ==> !Named(columns[j], name)
    ensures r.None? <==> forall j :: 0 <= j < |columns| ==> !Named(columns[j], name)
  {
    if columns == [] then None
    else if Named(columns[0], name) then Some(0)
    else
      match FindByName(columns[1..], name)
      case None =>
        assert forall j :: 1 <= j < |columns| ==> columns[j] == columns[1..][j - 1];
        None
      case Some(k) =>
        assert forall j :: 1 <= j <= k + 1 ==> columns[j] == columns[1..][j - 1];
        Some(k + 1)
  }

  /** Candidate priority: the live spelling of the first candidate, in candidate order,
      that some column carries case-insensitively. */
  function PriorityMatch(columns: seq<Column>, candidates: seq<string>): (r: Option<string>)
    ensures r.None? <==> forall i :: 0 <= i < |candidates| ==> FindByName(columns, candidates[i]).None?
    ensures r.Some? ==> exists i :: (0 <= i < |candidates| && FindByName(columns, candidates[i]).Some?
      && r.value == columns[FindByName(columns, candidates[i]).value].field
      && forall k :: 0 <= k < i ==> FindByName(columns, candidates[k]).None?)
  {
    if candidates == [] then None
    else
      match FindByName(columns, candidates[0])
      case Some(j) => Some(columns[j].field)
      case None =>
        var rest := PriorityMatch(columns, candidates[1..]);
        assert forall i :: 1 <= i < |candidates| ==> candidates[i] == candidates[1..][i - 1];
        rest
  }

  /** The `for (const col of candidates) { … if (found) { v = found.Field; break; } }`
      loop of the earners route. */
  method SelectByPriority(columns: seq<Column>, candidates: seq<string>) returns (selected: Option<string>)
    ensures selected == PriorityMatch(columns, candidates)
  {
    selected := None;
    var i := 0;
    while i < |candidates|
      invariant 0 <= i <= |candidates|
      invariant PriorityMatch(columns, candidates) == PriorityMatch(columns, candidates[i..])
    {
      assert candidates[i..][0] == candidates[i];
      var found := FindByName(columns, candidates[i]);
      if found.Some? {
        selected := Some(columns[found.value].field);
        break;
      }
      assert candidates[i..][1..] == candidates[i + 1..];
      i := i + 1;
    }
  }

  /** `columns.find((col) => candidates.includes(col.Field.toLowerCase()))`, as an index:
      the first live column whose lower-cased name is any of the candidates. */
  function FindLive(columns: seq<Column>, candidates: seq<string>): (r: Option<nat>)
    ensures r.Some? ==> r.value < |columns| && Lower(columns[r.value].field) in candidates
    ensures r.Some? ==> forall j :: 0 <= j < r.value ==> Lower(columns[j].field) !in candidates
    ensures r.None? <==> forall j :: 0 <= j < |columns| ==> Lower(columns[j].field) !in candidates
  {
    if columns == [] then None
    else if Lower(columns[0].field) in candidates then Some(0)
    else
      match FindLive(columns[1..], candidates)
      case None =>
        assert forall j :: 1 <= j < |columns| ==> columns[j] == columns[1..][j - 1];
        None
      case Some(k) =>
        assert forall j :: 1 <= j <= k + 1 ==> columns[j] == columns[1..][j - 1];
        Some(k + 1)
  }

  /** `found?.Field` for an optional index. */
  function FieldAt(columns: seq<Column>, j: Option<nat>): Option<string> {
    if j.Some? && j.value < |columns| then Some(columns[j.value].field) else None
  }

  /** `columns[0]?.Field` */
  function FirstField(columns: seq<Column>): Option<string> {
    if |columns| > 0 then Some(columns[0].field) else None
  }

  /** Live order without a literal default: `foundColumn?.Field || columns[0]?.Field`, and
      null when the probe was rejected (the bans route). */
  function LiveOrderColumn(probe: Probe, candidates: seq<string>): (r: Option<string>)
    requires "" !in candidates
    ensures probe.None? ==> r.None?
    ensures probe.Some? && FindLive(probe.value, candidates).Some? ==>
      r == Some(probe.value[FindLive(probe.value, candidates).value].field)
    ensures probe.Some? && FindLive(probe.value, candidates).None? && |probe.value| > 0 && probe.value[0].field != "" ==>
      r == Some(probe.value[0].field)
    ensures Present(r) ==> probe.Some? && exists j :: 0 <= j < |probe.value| && probe.value[j].field == r.value
  {
    match probe
    case None => None
    case Some(columns) =>
      var found := FindLive(columns, candidates);
      FirstPresentPair(FieldAt(columns, found), FirstField(columns));
      FirstPresent([FieldAt(columns, found), FirstField(columns)])
  }

  /** Live order with a literal default: `let v = fallback; try { … v = foundColumn?.Field
      || columns[0]?.Field || fallback } catch {}` (the gangs and events routes). */
  function LiveOrderOr(probe: Probe, candidates: seq<string>, fallback: string): (r: string)
    requires fallback != "" && "" !in candidates
    ensures r != ""
    ensures probe.None? ==> r == fallback
    ensures probe.Some? && FindLive(probe.value, candidates).Some? ==>
      r == probe.value[FindLive(probe.value, candidates).value].field
    ensures probe.Some? && FindLive(probe.value, candidates).None? && |probe.value| > 0 && probe.value[0].field != "" ==>
      r == probe.value[0].field
    ensures probe.Some? && FindLive(probe.value, candidates).None? && (|probe.value| == 0 || probe.value[0].field == "") ==>
      r == fallback
  {
    match probe
    case None => fallback
    case Some(columns) =>
      FirstPresentPair(FieldAt(columns, FindLive(columns, candidates)), FirstField(columns));
      FirstPresentOr([FieldAt(columns, FindLive(columns, candidates)), FirstField(columns)], fallback)
  }

  /** `type.includes('int') || type.includes('decimal') || type.includes('float')` on the
      lower-cased column type. */
  predicate Numeric(c: Column) {
    var t := Lower(c.colType);
    Contains(t, "int") || Contains(t, "decimal") || Contains(t, "float")
  }

  /** `columns.find(isNumeric)`, as an index. */
  function FindNumeric(columns: seq<Column>): (r: Option<nat>)
    ensures r.Some? ==> r.value < |columns| && Numeric(columns[r.value])
    ensures r.Some? ==> forall j :: 0 <= j < r.value ==> !Numeric(columns[j])
    ensures r.None? <==> forall j :: 0 <= j < |columns| ==> !Numeric(columns[j])
  {
    if columns == [] then None
    else if Numeric(columns[0]) then Some(0)
    else
      match FindNumeric(columns[1..])
      case None =>
        assert forall j :: 1 <= j < |columns| ==> columns[j] == columns[1..][j - 1];
        None
      case Some(k) =>
        assert forall j :: 1 <= j <= k + 1 ==> columns[j] == columns[1..][j - 1];
        Some(k + 1)
  }

  /** The money column when no candidate matched: from a second probe, the first numeric
      column, else the first column, else `'id'`; `'id'` as well when that probe fails. */
  function NumericFallback(probe: Probe): (r: string)
    ensures r != ""
    ensures probe.None? ==> r == "id"
    ensures probe.Some? && FindNumeric(probe.value).Some? && probe.value[FindNumeric(probe.value).value].field != "" ==>
      r == probe.value[FindNumeric(probe.value).value].field
    ensures probe.Some? && FindNumeric(probe.value).None? && |probe.value| > 0 && probe.value[0].field != "" ==>
      r == probe.value[0].field
    ensures probe.Some? && FindNumeric(probe.value).None? && |probe.value| == 0 ==> r == "id"
  {
    match probe
    case None => "id"
    case Some(columns) =>
      FirstPresentPair(FieldAt(columns, FindNumeric(columns)), FirstField(columns));
      FirstPresentOr([FieldAt(columns, FindNumeric(columns)), FirstField(columns)], "id")
  }

  /** The two rules disagree as soon as the live order differs from the candidate order:
      with columns `elo, id` and candidates `id, elo`, priority picks `id` and live order
      picks `elo`. */
  lemma PoliciesDiffer()
    ensures PriorityMatch([Column("elo", "int"), Column("id", "int")], ["id", "elo"]) == Some("id")
    ensures LiveOrderOr(Some([Column("elo", "int"), Column("id", "int")]), ["id", "elo"], "id") == "elo"
  {
    var columns := [Column("elo", "int"), Column("id", "int")];
    assert Lower("elo") == "elo";
    assert Lower("id") == "id";
    assert FindByName(columns, "id") == Some(1) by {
      assert !Named(columns[0], "id");
      assert Named(columns[1], "id");
    }
    assert FindLive(columns, ["id", "elo"]) == Some(0);
  }

  /** At most one live column answers to any candidate. */
  predicate SingleMatch(columns: seq<Column>, candidates: seq<string>) {
    forall j, k :: 0 <= j < k < |columns| && Lower(columns[j].field) in candidates ==> Lower(columns[k].field) !in candidates
  }

  /** When at most one live column answers to any candidate, the two rules agree. */
  lemma PoliciesAgreeOnSingleMatch(columns: seq<Column>, candidates: seq<string>)
    requires SingleMatch(columns, candidates)
    ensures PriorityMatch(columns, candidates) == FieldAt(columns, FindLive(columns, candidates))
  {
    var live := FindLive(columns, candidates);
    if live.Some? {
      AgreeOnLiveColumn(columns, candidates, live.value);
    } else {
      AgreeOnNoColumn(columns, candidates);
    }
  }

  lemma AgreeOnLiveColumn(columns: seq<Column>, candidates: seq<string>, l: nat)
    requires SingleMatch(columns, candidates)
    requires FindLive(columns, candidates) == Some(l)
    ensures PriorityMatch(columns, candidates) == Some(columns[l].field)
  {
    var r := PriorityMatch(columns, candidates);
    var i0 :| 0 <= i0 < |candidates| && candidates[i0] == Lower(columns[l].field);
    assert Named(columns[l], candidates[i0]);
    assert FindByName(columns, candidates[i0]).Some?;
    var i :| 0 <= i < |candidates| && FindByName(columns, candidates[i]).Some?
      && r.value == columns[FindByName(columns, candidates[i]).value].field;
    var j := FindByName(columns, candidates[i]).value;
    OnlyLiveColumn(columns, candidates, l, j);
  }

  /** Under a single match, the first live column is the only one. */
  lemma OnlyLiveColumn(columns: seq<Column>, candidates: seq<string>, l: nat, j: nat)
    requires SingleMatch(columns, candidates)
    requires FindLive(columns, candidates) == Some(l)
    requires j < |columns| && Lower(columns[j].field) in candidates
    ensures j == l
  {
    assert l <= j;
  }

  lemma AgreeOnNoColumn(columns: seq<Column>, candidates: seq<string>)
    requires FindLive(columns, candidates).None?
    ensures PriorityMatch(columns, candidates).None?
  {
    forall i | 0 <= i < |candidates|
      ensures FindByName(columns, candidates[i]).None?
    {
      forall j | 0 <= j < |columns|
        ensures !Named(columns[j], candidates[i])
      {
        assert Lower(columns[j].field) !in candidates;
      }
    }
  }
}
