/** The user record of the Steam login (`/steam/return`) and of `/me`: which of the
    database record, the token and the Steam profile each field comes from. */
module Identity {
  import opened Js
  import opened Sql
  import opened SteamId
  import opened SteamProfile

  /** `SELECT * FROM player WHERE SteamID = ? LIMIT 1` on the `iga` pool. */
  function PlayerLookup(steamId: Value): (q: Query)
    ensures q.pool == Iga && q.params == [steamId] && Holes(q.sql) == |q.params|
  {
    Query(Iga, [Text("SELECT * FROM " + "player WHERE SteamID = "), Hole, Text(" LIMIT 1")], [steamId])
  }

  /** `{ steamId, steamId64, name, avatar, rank }` */
  datatype User = User(steamId: Value, steamId64: Value, name: Value, avatar: Value, rank: Value)

  /** `steamData?.name` and `steamData?.avatar` */
  function SteamName(d: Option<SteamData>): Value {
    if d.Some? then OrNull(d.value.name) else VNull
  }

  function SteamAvatar(d: Option<SteamData>): Value {
    if d.Some? then OrNull(d.value.avatar) else VNull
  }

  /** The user built from the `player` record. */
  function RecordUser(row: Row, steamId64: string, steamData: Option<SteamData>): User {
    User(Get(row, "SteamID"), VStr(steamId64),
         FirstTruthyOr([Get(row, "SteamName"), Get(row, "name"), SteamName(steamData)], VStr("Unknown")),
         FirstTruthyOr([Get(row, "avatar"), SteamAvatar(steamData)], VNull),
         FirstTruthyOr([Get(row, "Rank")], VNull))
  }

  /** The user built when there is no record, or the lookup failed. */
  function NewUser(steamId: string, steamId64: string, steamData: Option<SteamData>): (u: User)
    ensures u.steamId == VStr(steamId) && u.steamId64 == VStr(steamId64) && u.rank == VNull
    ensures Truthy(SteamName(steamData)) ==> u.name == SteamName(steamData)
    ensures !Truthy(SteamName(steamData)) ==> u.name == VStr("Unknown")
    ensures Truthy(SteamAvatar(steamData)) ==> u.avatar == SteamAvatar(steamData)
    ensures !Truthy(SteamAvatar(steamData)) ==> u.avatar == VNull
  {
    User(VStr(steamId), VStr(steamId64),
         FirstTruthyOr([SteamName(steamData)], VStr("Unknown")),
         FirstTruthyOr([SteamAvatar(steamData)], VNull),
         VNull)
  }

  /** The user stored in the token at login, once the record lookup has answered. */
  method LoginUser(steamId: string, steamId64: string, steamData: Option<SteamData>, lookup: QueryResult)
    returns (user: User)
    ensures user.steamId64 == VStr(steamId64)
    ensures Truthy(user.name)
    ensures Truthy(user.avatar) || user.avatar == VNull
    ensures Truthy(user.rank) || user.rank == VNull
    ensures lookup.Rows? && |lookup.rows| > 0 ==> user == RecordUser(lookup.rows[0], steamId64, steamData)
    ensures !(lookup.Rows? && |lookup.rows| > 0) ==> user == NewUser(steamId, steamId64, steamData)
  {
    match lookup
    case Failed(_) =>
      user := NewUser(steamId, steamId64, steamData);
    case Rows(users) =>
      if |users| > 0 {
        user := RecordUser(users[0], steamId64, steamData);
      } else {
        user := NewUser(steamId, steamId64, steamData);
      }
  }

  /** The record's `SteamName` wins over its `name`, which wins over the Steam profile,
      which wins over `'Unknown'`; the avatar and the rank likewise. */
  lemma RecordUserPrecedence(row: Row, steamId64: string, steamData: Option<SteamData>)
    ensures var u := RecordUser(row, steamId64, steamData);
      && (Truthy(Get(row, "SteamName")) ==> u.name == Get(row, "SteamName"))
      && (!Truthy(Get(row, "SteamName")) && Truthy(Get(row, "name")) ==> u.name == Get(row, "name"))
      && (!Truthy(Get(row, "SteamName")) && !Truthy(Get(row, "name")) && Truthy(SteamName(steamData)) ==> u.name == SteamName(steamData))
      && (!Truthy(Get(row, "SteamName")) && !Truthy(Get(row, "name")) && !Truthy(SteamName(steamData)) ==> u.name == VStr("Unknown"))
      && (Truthy(Get(row, "avatar")) ==> u.avatar == Get(row, "avatar"))
      && (!Truthy(Get(row, "avatar")) && Truthy(SteamAvatar(steamData)) ==> u.avatar == SteamAvatar(steamData))
      && (!Truthy(Get(row, "avatar")) && !Truthy(SteamAvatar(steamData)) ==> u.avatar == VNull)
      && (Truthy(Get(row, "Rank")) ==> u.rank == Get(row, "Rank"))
      && (!Truthy(Get(row, "Rank")) ==> u.rank == VNull)
  {
    var names := [Get(row, "SteamName"), Get(row, "name"), SteamName(steamData)];
    FirstTruthyOrStep(names, VStr("Unknown"));
    assert names[1..] == [Get(row, "name"), SteamName(steamData)];
    FirstTruthyOrStep(names[1..], VStr("Unknown"));
    assert names[1..][1..] == [SteamName(steamData)];
    FirstTruthyOrStep(names[1..][1..], VStr("Unknown"));
    assert names[1..][1..][1..] == [];
    var avatars := [Get(row, "avatar"), SteamAvatar(steamData)];
    FirstTruthyOrStep(avatars, VNull);
    assert avatars[1..] == [SteamAvatar(steamData)];
    FirstTruthyOrStep(avatars[1..], VNull);
    assert avatars[1..][1..] == [];
    assert [Get(row, "Rank")][1..] == [];
  }

  /** The user the login puts in the token for a 64-bit id that converts: the record
      user when the lookup of the converted id returns a row, else the new user, both
      over the Steam data fetched for the id. */
  predicate LoginRecord(u: User, steamId64: string, xml: XmlFetch, html: HtmlFetch, db: Database) {
    ToLegacyId(steamId64).Some? &&
    var steamId := ToLegacyId(steamId64).value;
    var lookup := db(PlayerLookup(VStr(steamId)));
    var steamData := SteamUserData(steamId64, xml, html);
    (lookup.Rows? && |lookup.rows| > 0 ==> u == RecordUser(lookup.rows[0], steamId64, steamData))
    && (!(lookup.Rows? && |lookup.rows| > 0) ==> u == NewUser(steamId, steamId64, steamData))
  }

  /** `/steam/return` once OpenID has given the 64-bit id: the user put in the token.
      `None` when `BigInt` throws on the id: the throw happens inside the asynchronous
      `verifyAssertion` callback, outside the route's `try`, so no redirect is sent and
      the request is left without an answer. */
  method SteamReturn(steamId64: string, xml: XmlFetch, html: HtmlFetch, db: Database) returns (r: Option<User>)
    ensures r.None? <==> BigIntOf(steamId64).None?
    ensures r.Some? ==> r.value.steamId64 == VStr(steamId64) && Truthy(r.value.name)
    ensures r.Some? ==> LoginRecord(r.value, steamId64, xml, html, db)
  {
    var steamId := ToLegacyId(steamId64);
    if steamId.None? {
      return None;
    }
    var steamData := GetSteamUserData(steamId64, xml, html);
    var user := LoginUser(steamId.value, steamId64, steamData, db(PlayerLookup(VStr(steamId.value))));
    r := Some(user);
  }

  /** The prefix OpenID's claimed identifier carries for a Steam account. */
  const SteamOpenIdPrefix := "https://steamcommunity.com/openid/id/"

  /** `result.claimedIdentifier.replace('https://steamcommunity.com/openid/id/', '')` */
  function ClaimedSteamId64(claimed: string): string {
    Replace(claimed, LiteralAt(SteamOpenIdPrefix), "")
  }

  /** Steam's own identifiers give the account number that follows the prefix. */
  lemma ClaimedSteamId64OfSteam(digits: string)
    ensures ClaimedSteamId64(SteamOpenIdPrefix + digits) == digits
  {
    var claimed := SteamOpenIdPrefix + digits;
    assert claimed[0..|SteamOpenIdPrefix|] == SteamOpenIdPrefix;
    ReplaceAtStart(claimed, LiteralAt(SteamOpenIdPrefix), "");
    assert claimed[|SteamOpenIdPrefix|..] == digits;
  }

  /** An identifier asserted by another OpenID provider (one shorter than Steam's prefix,
      starting and ending with a letter, such as `https://example.org/id/x`) reaches the
      conversion unchanged, and `BigInt` throws on it: as written, such a login is left
      without an answer. */
  lemma ForeignClaimUnanswered(claimed: string)
    requires claimed != [] && IsAsciiLetter(claimed[0]) && IsAsciiLetter(claimed[|claimed| - 1])
    requires |claimed| < |SteamOpenIdPrefix|
    ensures ClaimedSteamId64(claimed) == claimed
    ensures BigIntOf(ClaimedSteamId64(claimed)).None?
  {
    ReplaceNoMatch(claimed, LiteralAt(SteamOpenIdPrefix), "");
    assert !IsDigit(claimed[0]);
    BigIntOfRejected(claimed);
  }

  /** What the login sends back once the conversion is inside the route's `try`. */
  datatype LoginAnswer = TokenRedirect(user: User) | ErrorRedirect

  /** `/steam/return` with the conversion's throw caught: every login is answered, with
      the error redirect exactly when `BigInt` throws, else with the token of the same
      user as the handler as written. */
  method SteamReturnCaught(steamId64: string, xml: XmlFetch, html: HtmlFetch, db: Database) returns (a: LoginAnswer)
    ensures a.ErrorRedirect? <==> BigIntOf(steamId64).None?
    ensures a.TokenRedirect? ==> a.user.steamId64 == VStr(steamId64) && Truthy(a.user.name)
    ensures a.TokenRedirect? ==> LoginRecord(a.user, steamId64, xml, html, db)
  {
    var user := SteamReturn(steamId64, xml, html, db);
    if user.None? {
      return ErrorRedirect;
    }
    a := TokenRedirect(user.value);
  }

  // ---------------------------------------------------------------- /me

  /** `req.headers.authorization?.replace('Bearer ', '') || req.query.token` */
  function TokenOf(authorization: Option<string>, queryToken: Option<string>): (t: Option<string>)
    ensures Present(t) <==> Present(BearerStripped(authorization)) || Present(queryToken)
    ensures Present(BearerStripped(authorization)) ==> t == BearerStripped(authorization)
    ensures !Present(BearerStripped(authorization)) && Present(queryToken) ==> t == queryToken
  {
    var xs := [BearerStripped(authorization), queryToken];
    FirstPresentStep(xs, 0);
    FirstPresentStep(xs, 1);
    assert xs[0..] == xs && xs[2..] == [];
    FirstPresent(xs)
  }

  function BearerStripped(authorization: Option<string>): Option<string> {
    match authorization
    case None => None
    case Some(a) => Some(Replace(a, LiteralAt("Bearer "), ""))
  }

  /** A `Bearer` header gives the token that follows the scheme. */
  lemma BearerToken(token: string)
    ensures BearerStripped(Some("Bearer " + token)) == Some(token)
  {
    var s := "Bearer " + token;
    assert s[0..7] == "Bearer ";
    assert LiteralAt("Bearer ")(s, 0) == Some(7);
    assert MatchAt(LiteralAt("Bearer "), s, 0) == Some(7);
    ReplaceAtStart(s, LiteralAt("Bearer "), "");
    assert s[7..] == token;
    assert "" + s[7..] == token;
  }

  /** The token has no truthy `steamId64` but a truthy string `steamId`: `/me` converts
      the legacy id. */
  predicate FromLegacyId(userData: map<string, Value>) {
    !Truthy(Get(userData, "steamId64")) && Truthy(Get(userData, "steamId")) && Get(userData, "steamId").VStr?
  }

  /** The 64-bit id `/me` works with: the token's `steamId64`, else the conversion of
      its `steamId`; `None` when that conversion throws (a `steamId` that is not a
      string has no `match`). */
  function TokenSteamId64(userData: map<string, Value>): (r: Option<Value>)
    ensures Truthy(Get(userData, "steamId64")) ==> r == Some(Get(userData, "steamId64"))
    ensures !Truthy(Get(userData, "steamId")) ==> r == Some(Get(userData, "steamId64"))
    ensures r.None? <==> !Truthy(Get(userData, "steamId64")) && Truthy(Get(userData, "steamId")) && !Get(userData, "steamId").VStr?
    ensures FromLegacyId(userData) ==> r == Some(OrNull(ToCommunityId64(Get(userData, "steamId").s)))
    ensures FromLegacyId(userData) && ParseLegacy(Get(userData, "steamId").s).None? ==> r == Some(VNull)
    ensures FromLegacyId(userData) && ParseLegacy(Get(userData, "steamId").s).Some? ==>
      r.Some? && r.value.VStr? && AllDigits(r.value.s)
      && ParseDigits(r.value.s) == EncodeSteamId64(ParseLegacy(Get(userData, "steamId").s).value)
  {
    var steamId64 := Get(userData, "steamId64");
    var steamId := Get(userData, "steamId");
    if !Truthy(steamId64) && Truthy(steamId) then
      match steamId
      case VStr(s) => Some(OrNull(ToCommunityId64(s)))
      case _ => None
    else Some(steamId64)
  }

  /** A token that carries only a legacy id gets the 64-bit id computed from it. */
  lemma TokenSteamId64FromLegacy(userData: map<string, Value>, id: LegacyId)
    requires !Truthy(Get(userData, "steamId64")) && Get(userData, "steamId") == VStr(RenderLegacy(id))
    ensures id.universe >= 0 ==> TokenSteamId64(userData) == Some(VStr(Digits(EncodeSteamId64(id))))
    ensures id.universe < 0 ==> TokenSteamId64(userData) == Some(VNull)
  {
    EncodeRendered(id);
  }

  /** The avatar and name after the Steam fallback: the profile is consulted only when
      there is an id and the avatar is missing or the name is `'Unknown'`, and then only
      fills what is missing. */
  predicate NeedsSteam(steamId64: Value, avatar: Value, name: Value) {
    Truthy(steamId64) && (!Truthy(avatar) || name == VStr("Unknown"))
  }

  function FilledAvatar(avatar: Value, steam: Option<SteamData>): Value {
    if !Truthy(avatar) && steam.Some? && Present(steam.value.avatar) then VStr(steam.value.avatar.value) else avatar
  }

  function FilledName(name: Value, steam: Option<SteamData>): Value {
    if name == VStr("Unknown") && steam.Some? && Present(steam.value.name) then VStr(steam.value.name.value) else name
  }

  /** The fallback to the Steam profile shared by both branches of `/me`; `steam` is what
      getSteamUserData answers for the id, and `fetched` says whether it is asked. */
  method EnrichFromSteam(steamId64: Value, avatar: Value, name: Value, steam: Option<SteamData>)
    returns (avatar': Value, name': Value, fetched: bool)
    ensures fetched <==> NeedsSteam(steamId64, avatar, name)
    ensures Truthy(avatar) ==> avatar' == avatar
    ensures name != VStr("Unknown") ==> name' == name
    ensures avatar' == if fetched then FilledAvatar(avatar, steam) else avatar
    ensures name' == if fetched then FilledName(name, steam) else name
  {
    avatar', name', fetched := avatar, name, false;
    if Truthy(steamId64) && (!Truthy(avatar) || name == VStr("Unknown")) {
      fetched := true;
      var steamData := steam;
      if steamData.Some? {
        if !Truthy(avatar') && Present(steamData.value.avatar) {
          avatar' := VStr(steamData.value.avatar.value);
        }
        if name' == VStr("Unknown") && Present(steamData.value.name) {
          name' := VStr(steamData.value.name.value);
        }
      }
    }
  }

  /** The answers of `/me`. */
  datatype MeReply =
    | NotAuthenticated                   // 401 'Not authenticated'
    | InvalidToken                       // 401 'Invalid token': undecodable token, or any failure after it
    | MeUser(body: map<string, Value>)   // 200 with the user

  /** The body answered for a player the database knows. */
  function DbUserBody(row: Row, steamId64: Value, steam: Option<SteamData>): (body: map<string, Value>)
    ensures body.Keys == {"steamId", "steamId64", "name", "avatar", "rank"}
    ensures body["steamId"] == Get(row, "SteamID") && body["rank"] == FirstTruthyOr([Get(row, "Rank")], VNull)
    ensures body["steamId64"] == FirstTruthyOr([steamId64], VNull)
  {
    var avatar := FirstTruthyOr([Get(row, "avatar")], VNull);
    var name := FirstTruthyOr([Get(row, "SteamName"), Get(row, "name")], VStr("Unknown"));
    var fetch := NeedsSteam(steamId64, avatar, name);
    map["steamId" := Get(row, "SteamID"), "steamId64" := FirstTruthyOr([steamId64], VNull),
        "name" := if fetch then FilledName(name, steam) else name,
        "avatar" := if fetch then FilledAvatar(avatar, steam) else avatar,
        "rank" := FirstTruthyOr([Get(row, "Rank")], VNull)]
  }

  /** The body answered for a player the database does not know: the token's own
      fields, with the id, the name and the avatar completed. */
  function TokenUserBody(userData: map<string, Value>, steamId64: Value, steam: Option<SteamData>): (body: map<string, Value>)
    ensures body.Keys == userData.Keys + {"steamId64", "name", "avatar"}
    ensures forall k :: k in userData && k !in {"steamId64", "name", "avatar"} ==> body[k] == userData[k]
    ensures body["steamId64"] == FirstTruthyOr([steamId64], VNull)
  {
    var avatar := FirstTruthyOr([Get(userData, "avatar")], VNull);
    var name := FirstTruthyOr([Get(userData, "name")], VStr("Unknown"));
    var fetch := NeedsSteam(steamId64, avatar, name);
    userData["steamId64" := FirstTruthyOr([steamId64], VNull)]
            ["name" := if fetch then FilledName(name, steam) else name]
            ["avatar" := if fetch then FilledAvatar(avatar, steam) else avatar]
  }

  /** `/me`: `decode` is the base64/JSON decoding of the token (`None` when it throws),
      `steam` what getSteamUserData answers for the id. A token without a `steamId`
      field cannot be looked up: the driver refuses an `undefined` parameter. */
  method Me(authorization: Option<string>, queryToken: Option<string>,
            decode: string -> Option<map<string, Value>>, db: Database, steam: Option<SteamData>)
    returns (reply: MeReply)
    ensures !Present(TokenOf(authorization, queryToken)) ==> reply == NotAuthenticated
    ensures Present(TokenOf(authorization, queryToken)) ==>
      var userData := decode(TokenOf(authorization, queryToken).value);
      if userData.None? || TokenSteamId64(userData.value).None? || "steamId" !in userData.value then
        reply == InvalidToken
      else
        var steamId64 := TokenSteamId64(userData.value).value;
        match db(PlayerLookup(Get(userData.value, "steamId")))
        case Failed(_) => reply == InvalidToken
        case Rows(users) =>
          if |users| > 0 then reply == MeUser(DbUserBody(users[0], steamId64, steam))
          else reply == MeUser(TokenUserBody(userData.value, steamId64, steam))
  {
    var token := TokenOf(authorization, queryToken);
    if !Present(token) {
      return NotAuthenticated;
    }
    var decoded := decode(token.value);
    if decoded.None? {
      return InvalidToken;
    }
    var userData := decoded.value;
    var steamId64 := Get(userData, "steamId64");
    if !Truthy(steamId64) && Truthy(Get(userData, "steamId")) {
      match Get(userData, "steamId")
      case VStr(s) =>
        steamId64 := OrNull(ToCommunityId64(s));
      case _ =>
        return InvalidToken;
    }
    if "steamId" !in userData {
      // the bind parameter is `undefined`, which the driver's `execute` rejects
      return InvalidToken;
    }
    var users := db(PlayerLookup(Get(userData, "steamId")));
    if users.Failed? {
      return InvalidToken;
    }
    if |users.rows| > 0 {
      var row := users.rows[0];
      var avatar := FirstTruthyOr([Get(row, "avatar")], VNull);
      var name := FirstTruthyOr([Get(row, "SteamName"), Get(row, "name")], VStr("Unknown"));
      var fetched;
      avatar, name, fetched := EnrichFromSteam(steamId64, avatar, name, steam);
      reply := MeUser(map["steamId" := Get(row, "SteamID"), "steamId64" := FirstTruthyOr([steamId64], VNull),
                          "name" := name, "avatar" := avatar, "rank" := FirstTruthyOr([Get(row, "Rank")], VNull)]);
    } else {
      var avatar := FirstTruthyOr([Get(userData, "avatar")], VNull);
      var name := FirstTruthyOr([Get(userData, "name")], VStr("Unknown"));
      var fetched;
      avatar, name, fetched := EnrichFromSteam(steamId64, avatar, name, steam);
      reply := MeUser(userData["steamId64" := FirstTruthyOr([steamId64], VNull)]["name" := name]["avatar" := avatar]);
    }
  }

  /** `/me` never replaces a present avatar or a name other than `'Unknown'` by the one
      from Steam: for a player without a record, the token's present values are kept. */
  lemma TokenUserKeepsPresent(userData: map<string, Value>, steamId64: Value, steam: Option<SteamData>)
    ensures var body := TokenUserBody(userData, steamId64, steam);
      && (Truthy(Get(userData, "avatar")) ==> body["avatar"] == Get(userData, "avatar"))
      && (Truthy(Get(userData, "name")) && Get(userData, "name") != VStr("Unknown") ==> body["name"] == Get(userData, "name"))
      && (!Truthy(steamId64) ==>
            (body["avatar"] == FirstTruthyOr([Get(userData, "avatar")], VNull)
             && body["name"] == FirstTruthyOr([Get(userData, "name")], VStr("Unknown"))))
  {
    assert [Get(userData, "avatar")][1..] == [] && [Get(userData, "name")][1..] == [];
  }

  /** The same for a player with a record: its avatar and its name are kept when present. */
  lemma DbUserKeepsPresent(row: Row, steamId64: Value, steam: Option<SteamData>)
    ensures var body := DbUserBody(row, steamId64, steam);
      && (Truthy(Get(row, "avatar")) ==> body["avatar"] == Get(row, "avatar"))
      && (Truthy(Get(row, "SteamName")) && Get(row, "SteamName") != VStr("Unknown") ==> body["name"] == Get(row, "SteamName"))
      && (!Truthy(Get(row, "avatar")) && Truthy(steamId64) && steam.Some? && Present(steam.value.avatar) ==>
            body["avatar"] == VStr(steam.value.avatar.value))
  {
    assert [Get(row, "avatar")][1..] == [];
    assert [Get(row, "SteamName"), Get(row, "name")][1..] == [Get(row, "name")];
  }
}
