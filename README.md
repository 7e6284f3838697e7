# darkrp-api in Dafny

A model of the logic inside the darkrp-api backend, a REST gateway over four MySQL
databases (`tokens`, `iga`, `server`, `darkrp`) of a game-server community, with Steam
login. The HTTP layer, the MySQL driver and the Steam web pages are taken as inputs, and
what the handlers compute from them is modelled:

- **SteamID codec** (`steam_id.dfy`, module `SteamId`). Converts between the 64-bit
  community id and the legacy `STEAM_X:Y:Z` text. `BigInt(text)` is modelled by
  ECMAScript's StringToBigInt grammar: surrounding white space, an optional sign on
  decimals, `0x`/`0o`/`0b` prefixes, and a blank text reading as 0. BigInt shifts and
  masks by powers of two become `/` and `%` on `int`. Dafny's Euclidean division agrees
  with BigInt's `>>` and two's-complement `&`, negative numbers included. The decimal
  text, the `^STEAM_(\d+):(\d+):(\d+)$` parser and the renderer are written out and
  proved inverse.
- **Steam profile scraping** (`steam_profile.dfy`, `SteamProfile`). The clean-up of avatar
  URLs and page titles, and the `||` chains that choose a name and an avatar from the
  XML endpoint and from the HTML page. The regular-expression captures are inputs.
- **Login and `/me`** (`identity.dfy`, `Identity`). How the user record is built at
  login: database record first, then Steam profile, then `'Unknown'`/null. How `/me`
  completes a missing avatar or an `'Unknown'` name from Steam.
- **Column probing** (`schema_probe.dfy`, `SchemaProbe`). Both rules the routes use,
  side by side:
  - *candidate priority* (earners): the first candidate, in candidate order, that the
    table has;
  - *live order* (bans, gangs, events leaderboard): the first live column that is any
    candidate.
- **List queries** (`sql.dfy`, `listing.dfy` and one file per route: `earners.dfy`,
  `bans.dfy`, `gangs.dfy`, `leaderboard.dfy`, `punishments.dfy`, `staff.dfy`).
  - SQL text is a sequence of literal pieces and `?` holes, sent with its parameter
    list. `Render` gives the exact string, and the `?` characters of the rendered text
    equal the holes.
  - The database is a function from statements to results (rows, or a rejection).
  - Each handler is a method that grows the statements as the route does. It is proved
    equal to a function whose shape lemmas show that placeholders match parameters,
    that the WHERE clause appears only with a search, and that `LIMIT ? OFFSET ?` with
    `[limit, offset]` comes last.
  - The JOIN-less fallbacks and their name enrichment are modelled too.
- **Schema utilities** (`db_schema.dfy`, `DbSchema`): the column and index records of a
  table, the grouping of index rows by key name with the UNIQUE flag, and the relation
  search over pairs of tables.
- **Application middleware** (`app.dfy`, `App`):
  - the `/api` prefix added to request paths (a `Request` class whose `url` is updated);
  - the hand-written CORS headers and the OPTIONS preflight answered with 204 (a
    `Response` class);
  - the health report of the four pools.

JavaScript values are modelled explicitly (`Js.Value`: null, string, integer), with
JavaScript truthiness, because the source relies on `||` and `!x` throughout.
`Promise.all` is evaluated left to right.

## Model

| member | source | states |
|---|---|---|
| SteamId.DecodeSteamId64 | routes/auth.js:202-209 | the universe is `n / 2^56`, and `2*Z + Y` is `n mod 2^48` with `Y` in {0,1}, so `Y = (n mod 2^48) mod 2` and `Z = (n mod 2^48) / 2` |
| SteamId.BigIntOfTrimmed | routes/auth.js:203 | on a text without surrounding white space, `BigInt` answers only for the empty text or one that starts with a digit or a sign; a text of digits reads as its decimal value |
| SteamId.BigIntOf | routes/auth.js:203 | a text of ASCII digits reads as its decimal value |
| SteamId.BigIntOfLeadingSpace | routes/auth.js:203 | leading white space does not change what `BigInt` answers |
| SteamId.BigIntOfBlank | routes/auth.js:203 | an empty or blank text reads as 0 |
| SteamId.BigIntOfSigned | routes/auth.js:203 | `-digits` reads as the negated value and `+digits` as the value |
| SteamId.BigIntOfRadix | routes/auth.js:203 | `0x`, `0o`, `0b` (either case) followed by digits of that base read in base 16, 8, 2 |
| SteamId.BigIntOfBarePrefix | routes/auth.js:203 | a prefix with no digits after it throws |
| SteamId.BigIntOfSignedPrefix | routes/auth.js:203 | a sign before a `0x`-style prefix throws |
| SteamId.BigIntOfFraction | routes/auth.js:203 | `digits.digits` throws |
| SteamId.BigIntOfTrailingLetter | routes/auth.js:203 | digits followed by a letter throw |
| SteamId.ToLegacyId | routes/auth.js:202-209 | answers a legacy text exactly when `BigInt` accepts the input; for a text of digits it is the rendering of the decoded number |
| SteamId.ToLegacyIdNegative | routes/auth.js:202-209 | a negative id (e.g. `-1`) still converts, to a `STEAM_-u:Y:Z` text that the legacy pattern refuses |
| SteamId.NegativeRendered | routes/auth.js:204-208 | the legacy text of any negative number has a negative universe and does not parse |
| SteamId.ToLegacyIdBlank | routes/auth.js:202-209 | an empty or blank id converts to `STEAM_0:0:0` |
| SteamId.ParseLegacyMatches | routes/auth.js:213-221 | the parser accepts exactly the texts of the form `STEAM_` digits `:` digits `:` digits |
| SteamId.ParseRenderLegacy | routes/auth.js:208-221 | parsing the rendered `STEAM_X:Y:Z` gives back X, Y and Z when X is not negative; with a negative X (`STEAM_-1:…`) the text does not parse |
| SteamId.EncodeSteamId64 | routes/auth.js:219-227 | the result is at least the base `0x0110000100000000`, and for `Y <= 1` it is `base + 2Z + Y` |
| SteamId.ShiftOrLowBit | routes/auth.js:225 | `(Z << 1) \| Y` equals `2Z + Y` when Y is 0 or 1 |
| SteamId.ToCommunityId64 | routes/auth.js:211-238 | null exactly when the text does not parse; otherwise the decimal digits of the encoded id, which read back as that number |
| SteamId.EncoderRejectsMalformed | routes/auth.js:213-217 | null, the only error signal, is answered exactly when the text does not match `^STEAM_(\d+):(\d+):(\d+)$` |
| SteamId.EncodeRendered | routes/auth.js:211-238 | every rendered legacy id with a non-negative universe gets an answer, the decimal text of its 64-bit id, and that text reads back as the id; a negative universe gets null |
| SteamId.EncodingIgnoresUniverse | routes/auth.js:219-227 | two legacy ids that differ only in a non-negative universe encode to the same 64-bit id |
| SteamId.RoundTripAsWritten | routes/auth.js:202-227 | as written, encoding `STEAM_X:Y:Z` then decoding gives `STEAM_1:Y:(Z + 2^31)` when `2Z+Y < 2^32` |
| SteamId.RoundTripTextAsWritten | routes/auth.js:202-238 | the same round trip on the texts |
| SteamId.BaseIdDecodes | routes/auth.js:202-209 | 76561197960265728 decodes to `STEAM_1:0:2147483648` as written, and to `STEAM_1:0:0` with the 32-bit mask |
| SteamId.DecodeSteamId64Corrected | routes/auth.js:202-209 | the decoder with Valve's 32-bit account mask: universe `n / 2^56`, and `2Z + Y = n mod 2^32` |
| SteamId.ToLegacyIdCorrected | routes/auth.js:202-209 | the corrected decoder on text: answers exactly when `BigInt` accepts the input, and for digits renders the corrected decoding |
| SteamId.RoundTripCorrected | routes/auth.js:202-227 | with the 32-bit mask, decode(encode(`STEAM_X:Y:Z`)) is `STEAM_1:Y:Z` for every account that fits in 32 bits |
| SteamId.RoundTripTextCorrected | routes/auth.js:202-238 | the same on the texts |
| SteamId.RoundTripCorrectedFrom64 | routes/auth.js:202-227 | the other direction: every individual-account id (base to base + 2^32) is re-encoded from its corrected decoding |
| SteamId.EncodeExamples | routes/auth.js:219-227 | `STEAM_1:0:100` encodes to 76561197960265928 and `STEAM_1:1:100` to 76561197960265929; an out-of-range Y of 3 with Z = 0 is or-ed in as base + 3 |
| SteamProfile.StripQuery | routes/auth.js:280 | `replace(/\?.*$/, '')` leaves a prefix of the URL; it cuts at a `?` followed by no line terminator up to the end, and nowhere earlier |
| SteamProfile.StripQueryIdempotent | routes/auth.js:280 | stripping the query twice gives the same as once |
| SteamProfile.StripQueryFirstMark | routes/auth.js:280 | on a one-line URL the result has no `?`, and the URL is cut at its first `?` |
| SteamProfile.StripQueryOf | routes/auth.js:280 | `path?query` becomes `path` |
| SteamProfile.StripSizeSuffix | routes/auth.js:281 | `replace(/_[a-z]+\.jpg$/i, '.jpg')`: unchanged when nothing matches; otherwise everything before the match, followed by `.jpg` |
| SteamProfile.StripSizeSuffixOf | routes/auth.js:281 | `base_full.jpg` (any letters, any case of `.jpg`) becomes `base.jpg` |
| SteamProfile.StripSizeSuffixNotJpg | routes/auth.js:281 | a URL not ending in `.jpg` is left unchanged |
| SteamProfile.CdnUrl | routes/auth.js:385-387 | the avatar always starts with `http`; one that already does is kept unchanged, and any other gets `https://steamcdn-a.akamaihd.net` prefixed |
| SteamProfile.DropSiteName | routes/auth.js:340-343 | the cleaned title neither starts nor ends with white space (what it removes is stated by DropSiteNameOfProfile) |
| SteamProfile.DropSiteNameOfProfile | routes/auth.js:340-343 | the title `Steam Community :: <name>` gives the name, for a trimmed name in which `- Steam Community` does not occur |
| SteamProfile.NoSiteSuffix | routes/auth.js:342 | `- Steam Community` occurs nowhere in a text without a dash |
| SteamProfile.TitleName | routes/auth.js:335-349 | a name from `<title>` exactly when the trimmed title does not mention `error` or `not found`, and then the title without the site name |
| SteamProfile.XmlData | routes/auth.js:275-287 | the XML name is the trimmed capture; a non-empty trimmed avatar capture is cleaned (query and size suffix removed), and an empty or missing one is kept as it is |
| SteamProfile.GetSteamUserData | routes/auth.js:240-441 | the answer is SteamUserData: null for an empty id. An accepted XML answer wins. After that, null when the page request throws; otherwise the first present name and the first present avatar among the page candidates, in source order |
| SteamProfile.HtmlName | routes/auth.js:323-360 | the name after `og:title`, `<title>` and `actual_persona_name` continues the first-present chain over the name candidates |
| SteamProfile.HtmlAvatar | routes/auth.js:362-390 | the avatar after `og:image` and `playerAvatar` continues the first-present chain over the avatar candidates |
| SteamProfile.HtmlProfile | routes/auth.js:392-418 | the page method answers the first present name and the first present avatar, with `rgProfileData` last; an empty string becomes null |
| SteamProfile.HtmlFieldsPresentOrNull | routes/auth.js:415-418 | the page method never answers an empty name or avatar; a `playerAvatar` fallback is always absolute |
| Identity.PlayerLookup | routes/auth.js:83 | the lookup goes to the `iga` pool with the legacy id as its one parameter, matching its one placeholder |
| Identity.NewUser | routes/auth.js:92-109 | without a record the user has the converted id, the Steam name or `'Unknown'`, the Steam avatar or null, and rank null |
| Identity.LoginUser | routes/auth.js:81-110 | steamId64 is always the asserted one; the name is always truthy; avatar and rank are truthy or null. With a record, the record user; with no record or a database error, the new user |
| Identity.RecordUserPrecedence | routes/auth.js:84-91 | name = `SteamName` ‖ `name` ‖ Steam name ‖ `'Unknown'`; avatar = `avatar` ‖ Steam avatar ‖ null; rank = `Rank` ‖ null |
| Identity.SteamReturn | routes/auth.js:65-113 | no user (and no response) exactly when `BigInt` throws on the 64-bit id. Otherwise, with the Steam data of SteamUserData: the record user when the lookup of the converted id returns a row, else the new user built from the converted id; its steamId64 is the asserted one and its name is truthy |
| Identity.ClaimedSteamId64OfSteam | routes/auth.js:65 | a claimed identifier of the form `https://steamcommunity.com/openid/id/<rest>` gives `<rest>` as the 64-bit id, for every rest |
| Identity.ForeignClaimUnanswered | routes/auth.js:52-73 | a claimed identifier shorter than Steam's prefix that starts and ends with a letter passes the prefix removal unchanged, and `BigInt` rejects it, so the login as written sends no answer |
| Identity.SteamReturnCaught | routes/auth.js:43-120 | with the conversion inside the `try`: the error redirect exactly when `BigInt` throws; otherwise the token redirect of the record user or the new user over SteamUserData's data, with the asserted steamId64 and a truthy name |
| Identity.TokenOf | routes/auth.js:129 | a token exactly when the `Authorization` value without `Bearer ` or the `token` query parameter is non-empty; the header wins when both are |
| Identity.BearerToken | routes/auth.js:129 | `Bearer <t>` gives `t` |
| Identity.TokenSteamId64 | routes/auth.js:140-144 | the token's steamId64 when truthy, else the conversion of its steamId; it throws (invalid token) only when steamId is truthy and not a string. A string steamId converts to null when it does not parse as a legacy id, else to the decimal digits of its 64-bit encoding |
| Identity.TokenSteamId64FromLegacy | routes/auth.js:140-144 | a token with only `STEAM_X:Y:Z` gets the decimal text of its encoded id; with a negative universe it gets null |
| Identity.EnrichFromSteam | routes/auth.js:152-158 | Steam is consulted exactly when there is an id and the avatar is missing or the name is `'Unknown'`; it only fills those two, and never overwrites present values |
| Identity.DbUserBody | routes/auth.js:147-169 | the body for a known player has exactly the five keys steamId, steamId64, name, avatar, rank: steamId from the record, steamId64 or null, `Rank` or null |
| Identity.TokenUserBody | routes/auth.js:170-191 | for an unknown player, every token field other than steamId64, name and avatar is kept unchanged, and those three are added |
| Identity.Me | routes/auth.js:127-200 | 401 `Not authenticated` without a token; 401 `Invalid token` when decoding, conversion or the lookup fails, and when the token has no `steamId` (the driver refuses an `undefined` parameter); otherwise the body for a known player or for an unknown one |
| Identity.TokenUserKeepsPresent | routes/auth.js:171-189 | a present avatar and a name other than `'Unknown'` from the token are kept; without an id nothing is fetched |
| Identity.DbUserKeepsPresent | routes/auth.js:148-158 | a record's avatar and a `SteamName` other than `'Unknown'` are kept; a missing avatar is filled from Steam when it has one |
| SchemaProbe.FindByName | routes/earners.js:28 | the index of the first column whose lower-cased name is the candidate, or none when no column has it |
| SchemaProbe.PriorityMatch | routes/earners.js:26-33 | the live spelling of the column found for the first candidate, in candidate order, that matches; none exactly when no candidate matches |
| SchemaProbe.SelectByPriority | routes/earners.js:27-33 | the `for … break` loop over the candidates gives the priority match |
| SchemaProbe.FindLive | routes/bans.js:18 | the first live column, in live order, whose lower-cased name is in the candidate set; none exactly when there is none |
| SchemaProbe.LiveOrderColumn | routes/bans.js:15-22 | null when the probe fails. Otherwise the first candidate column in live order, else the first column |
| SchemaProbe.LiveOrderOr | routes/gangs.js:26-34 | as LiveOrderColumn, but a failed probe, an empty table or an empty first name gives the literal default; the result is never empty |
| SchemaProbe.FindNumeric | routes/earners.js:65-68 | the first column whose lower-cased type contains `int`, `decimal` or `float` |
| SchemaProbe.NumericFallback | routes/earners.js:62-74 | the first numeric column, else the first column, else `'id'`; `'id'` when the probe fails |
| SchemaProbe.PoliciesDiffer | routes/gangs.js:29-31 | with columns `elo, id` and candidates `id, elo`, candidate priority picks `id` and live order picks `elo` |
| SchemaProbe.PoliciesAgreeOnSingleMatch | routes/earners.js:26-33 | when at most one live column matches any candidate, the two rules agree |
| Sql.RenderPlaceholders | routes/earners.js:94-101 | the `?` characters of the rendered text are exactly the holes, when no literal piece has its own `?` |
| Sql.TotalOf | routes/bans.js:130 | total is `countResult[0].total` when truthy, else 0 |
| Sql.PageOf | routes/gangs.js:42-64 | 500 with the first rejection's message, else `{data, total, limit, offset}` |
| Sql.RowOf | routes/gangs.js:71-75 | the first row or null, 500 on rejection |
| Sql.RowsOf | routes/punishments.js:148-154 | all rows, 500 on rejection |
| Listing.Likes | routes/earners.js:95 | the condition has one placeholder per column |
| Listing.LikeAny | routes/bans.js:39 | the WHERE clause has one placeholder per column |
| Listing.ListShape | routes/bans.js:33-52 | both statements have as many `?` as parameters. The page statement ends ` ORDER BY c DESC LIMIT ? OFFSET ?` with `[limit, offset]` last. Conditions and their parameters appear exactly when there is a search |
| Listing.BuildList | routes/gangs.js:12-37 | the statements grown by `+=` and `push` are the list statements |
| Listing.RenderedPlaceholders | routes/bans.js:37-52 | the rendered text of a well-formed statement has as many `?` as parameters |
| Listing.NameLookup | routes/bans.js:99 | the name lookup goes to `iga` with the id as its one parameter |
| Listing.FoundName | routes/bans.js:97-104 | a name is found exactly when the id is truthy, not `'CONSOLE'`, and the lookup returns a row |
| Listing.WithNames | routes/bans.js:94-124 | `player_name` and `admin_name` are set only when a row is found, and every other field is copied unchanged. A lookup is sent exactly for the truthy, non-`'CONSOLE'` ids |
| Listing.EnrichRows | routes/bans.js:93-125 | every row is enriched, in order, one output per row |
| Listing.UnlookedRowUnchanged | routes/bans.js:95-123 | a row whose ids are all falsy or `'CONSOLE'` comes back unchanged |
| Listing.FallbackPage | routes/bans.js:88-128 | 500 with the first rejection, else the page of enriched rows with the fallback count's total |
| Earners.Unconnected | routes/earners.js:10-15 | the 503 carries the pool status, or `'Connection status unknown'` |
| Earners.FindColumns | routes/earners.js:19-74 | the three loops and the fallback give the money, name and SteamID columns of ColumnsOf |
| Earners.MatchIsLive | routes/earners.js:28-30 | a found column is a live column answering to a candidate, and is never empty |
| Earners.ColumnsChosen | routes/earners.js:23-74 | the money column is the priority match, else the numeric fallback, and never empty. Name and SteamID, when found, are live columns answering to their own candidates |
| Earners.SearchParams | routes/earners.js:81-92 | one `%search%` per condition, and nothing else |
| Earners.Condition | routes/earners.js:94-98 | one placeholder per found column; nothing when no column was found |
| Earners.Shape | routes/earners.js:76-102 | both statements have as many `?` as parameters and go to `darkrp`. The page statement is ordered by the money column with limit and offset last. With a search, the count has the same condition and parameters |
| Earners.NoColumnNoWhere | routes/earners.js:94-98 | with neither a name nor a SteamID column, neither statement has a WHERE, and only limit and offset are sent |
| Earners.SearchParts | routes/earners.js:81-92 | the SteamID condition comes before the name condition; no condition and no parameter without a search |
| Earners.List | routes/earners.js:8-130 | 503 and no statement unless `darkrp` is connected; otherwise the page of the statements built from the probed columns (limit 50, offset 0 by default) |
| Earners.BySteamIdQuery | routes/earners.js:143 | one placeholder, one parameter, the `darkrp` pool |
| Earners.BySteamId | routes/earners.js:133-149 | 503 unless connected; else the first record or null, or 500 |
| Bans.JoinShape | routes/bans.js:24-52 | both statements go to `iga` with as many `?` as parameters (five `%search%` on the page, three on the count, with a search); the page statement ends ` ORDER BY pb.<column> DESC LIMIT ? OFFSET ?`, `pb.Time` when no column is known, with limit and offset last |
| Bans.SimpleShape | routes/bans.js:67-86 | the fallback statements go to `iga` with as many `?` as parameters, and the page statement ends ordered by the column, `Time` when none is known, with limit and offset last |
| Bans.List | routes/bans.js:8-151 | the JOIN statements are sent. When both answer, their page is the reply. Otherwise the fallback statements are sent and their rows enriched with both names |
| Bans.ById | routes/bans.js:154-171 | tries `bid`, `ban_id`, `id` in that order, moving on only on rejection; the first row or null; 500 after three rejections |
| Bans.BySteamIdQuery | routes/bans.js:177-186 | the statement always ends with ` ORDER BY bid DESC` |
| Bans.BySteamId | routes/bans.js:174-192 | all rows of that statement, or 500 |
| Gangs.OrderColumn | routes/gangs.js:26-34 | never empty; `'id'` when the probe fails |
| Gangs.Shape | routes/gangs.js:12-37 | both statements go to `server` with as many `?` as parameters; the page statement ends ` ORDER BY <live column> DESC LIMIT ? OFFSET ?` with limit and offset last |
| Gangs.List | routes/gangs.js:8-65 | the page of the built statements (limit 50, offset 0 by default), or 500 |
| Gangs.ByIdQuery | routes/gangs.js:71 | one placeholder, one parameter, the `server` pool |
| Gangs.ById | routes/gangs.js:68-76 | the first row or null; 500 with the driver's message exactly when the statement is rejected |
| Leaderboard.BoardShape | routes/leaderboard.js:16-23 | the page statement carries only limit and offset, after `ORDER BY c DESC LIMIT ? OFFSET ?`; the count has no parameters |
| Leaderboard.Board | routes/leaderboard.js:16-32 | limit defaults to 100 and offset to 0; the reply echoes them with total `countResult[0].total` or 0 |
| Leaderboard.TokensBoard | routes/leaderboard.js:8-36 | 503 and no statement unless `tokens` is connected; else `roasts_tokens` by `tokens` |
| Leaderboard.MoneyBoard | routes/leaderboard.js:39-61 | `darkrp_player` by `money`, without a gate |
| Leaderboard.EventColumn | routes/leaderboard.js:68-76 | never empty; `'id'` when the probe fails |
| Leaderboard.EventsBoard | routes/leaderboard.js:64-97 | `event_winners` by the live-order column; `'id'` stays when probing fails |
| Leaderboard.PlaytimeBoard | routes/leaderboard.js:100-122 | `player` by `playtime` on `iga` |
| Punishments.JoinShape | routes/punishments.js:12-36 | both statements go to `iga` with as many `?` as parameters (six `%search%` on the page, four on the count, with a search); the page ends ` ORDER BY pp.Time DESC LIMIT ? OFFSET ?` with limit and offset last |
| Punishments.SimpleShape | routes/punishments.js:51-66 | the fallback statements go to `iga` with as many `?` as parameters, and the page ends ordered by `Time` with limit and offset last |
| Punishments.List | routes/punishments.js:8-131 | JOIN page when both statements answer; otherwise the fallback page, enriched with both names |
| Punishments.ByIdQuery | routes/punishments.js:137 | one placeholder, one parameter, the `iga` pool |
| Punishments.ById | routes/punishments.js:134-142 | the first row or null; 500 with the driver's message exactly on rejection |
| Punishments.BySteamIdQuery | routes/punishments.js:148 | one placeholder, one parameter |
| Punishments.BySteamId | routes/punishments.js:145-155 | all rows, or 500 |
| Staff.JoinShape | routes/staff.js:12-36 | both statements go to `iga` with as many `?` as parameters (two `%search%` on the page, one on the count, with a search); the page ends ` ORDER BY ot.Minutes DESC LIMIT ? OFFSET ?` with limit and offset last |
| Staff.SimpleShape | routes/staff.js:52-67 | the fallback statements go to `iga` with as many `?` as parameters, and the page ends ordered by `Minutes` with limit and offset last |
| Staff.List | routes/staff.js:8-118 | JOIN page when both statements answer; otherwise the fallback page, enriched with `player_name` only |
| Staff.BySteamIdQuery | routes/staff.js:124 | one placeholder, one parameter, the `iga` pool |
| Staff.BySteamId | routes/staff.js:121-129 | the first record or null; 500 with the driver's message exactly on rejection |
| DbSchema.ColumnInfos | utils/dbSchema.js:31-38 | as many records as columns, in order, with Field, Type, Null, Key, Default and Extra copied |
| DbSchema.ColumnInfosAppend | utils/dbSchema.js:31-38 | the mapping is row by row |
| DbSchema.IndexInfos | utils/dbSchema.js:39-44 | as many records as index rows, in order, with the four fields copied |
| DbSchema.CreateStatement | utils/dbSchema.js:45 | the first row's `Create Table` when truthy, else null |
| DbSchema.DatabaseSchema | utils/dbSchema.js:4-108 | rejected exactly when a statement about some table is. Otherwise one record per listed table, keyed by name; the database name is the configured one, else the key |
| DbSchema.Keys | utils/dbSchema.js:62-69 | the key names, each once, exactly those of the rows |
| DbSchema.Members | utils/dbSchema.js:62-68 | a key's column list is empty exactly when no row has that key |
| DbSchema.GroupsCoverRows | utils/dbSchema.js:62-68 | the groups hold as many column names as there are index rows |
| DbSchema.FirstWithKey | utils/dbSchema.js:70 | the first row with the key name |
| DbSchema.GroupIndexes | utils/dbSchema.js:62-68 | the dictionary maps each key name, in first-seen order (see Left out for index-like names), to its column names in row order |
| DbSchema.Summarize | utils/dbSchema.js:69-72 | UNIQUE exactly when the key's first row has `Non_unique` 0 |
| DbSchema.SummarizeAll | utils/dbSchema.js:69-72 | one summary per key, in key order |
| DbSchema.IndexReport | utils/dbSchema.js:60-73 | one report line per distinct key name, in first-seen order (see Left out for index-like names) |
| DbSchema.LowerFields | utils/dbSchema.js:147-148 | the lower-cased field names, one per column, in order |
| DbSchema.CommonFields | utils/dbSchema.js:150 | a field is common exactly when it is in both lists; no more of them than table 1 has |
| DbSchema.CommonFieldsAppend | utils/dbSchema.js:150 | the filter keeps table 1's order |
| DbSchema.RelatePair | utils/dbSchema.js:141-158 | for one pair, rejected when either probe is; otherwise the pair with its common fields when there are any, else nothing |
| DbSchema.ScanRow | utils/dbSchema.js:140-159 | the inner loop yields the relations of pairs `(i, j)`, `j > i`, in order of `j` |
| DbSchema.RelationsSound | utils/dbSchema.js:139-160 | every relation found is that of a pair `i < j` whose tables share a field |
| DbSchema.RelationsComplete | utils/dbSchema.js:139-160 | every pair `i < j` whose tables share a field is found |
| DbSchema.FindTableRelations | utils/dbSchema.js:132-172 | rejected exactly when, with two or more tables, some table's columns cannot be read. Otherwise the relations of the pairs `i < j`, in lexicographic order |
| App.PathOf | app.js:25 | for an origin-form URL, the path is its prefix before its first `?` (see Left out for absolute-form targets) |
| App.Normalized | app.js:23-30 | the URL is unchanged when the path starts with `/api`, else `/api` is prefixed |
| App.NormalizedPath | app.js:25-27 | after normalisation the path always starts with `/api` |
| App.NormalizedIdempotent | app.js:23-30 | applying the middleware twice is applying it once |
| App.Request.NormalizePath | app.js:23-30 | the request's url becomes the normalised url, and its method is unchanged |
| App.Origin | app.js:34 | `CORS_ORIGIN` when set and non-empty, else `*` |
| App.CorsHeaders | app.js:34-38 | the four CORS headers are set with their values, and other headers are kept |
| App.Cors | app.js:33-43 | every response gets the four headers; OPTIONS is answered 204 and stops, and other methods continue with the status untouched |
| App.PoolStatus | app.js:53-79 | `'connected'` exactly when `SELECT 1` succeeds, else `error: ` followed by the rejection's message |
| App.HealthCheck | app.js:50-82 | the four keys, each with its own pool's status, and top-level status always `'ok'` |

## Left out

- Network, HTTP framework and MySQL driver: the database is a total function from
  statements to results, and the Steam pages are their regular-expression captures. SQL
  semantics (LIKE, ORDER BY, JOIN rows) are not modelled: statements are text plus
  parameters.
- The OpenID 2.0 relying-party handshake (routes/auth.js:23-63) is left out. The
  handler starts from the asserted identifier, and Identity.ClaimedSteamId64 removes
  Steam's prefix from it.
- The base64/JSON token encoding (routes/auth.js:112, 136) is left out. `/me` takes the
  decoding as a parameter that may fail.
- The 17-digit / `7656119` format checks (routes/auth.js:69-71, 233-235) only log. The
  predicates `SteamId.LoginFormatWarning` and `SteamId.EncoderFormatWarning` name them,
  and no result depends on them.
- `Promise.all` parallelism is modelled as evaluation in order: the page statement, then
  the count, then the name lookups row by row.
- `parseInt` is not modelled: limit and offset arrive as already-parsed integers, with
  the route's default when absent.
- Lower-casing (`toLowerCase`) is ASCII-only: a column name with non-ASCII capitals
  compares differently in the model.
- The regular expressions that capture the name and avatar from the Steam XML and HTML
  (routes/auth.js:269-273, 327, 335, 355, 366, 378, 394) are inputs, not modelled. So is
  `JSON.parse` of `rgProfileData`: a parse failure is the absent profile.
- `getTableInfo` (utils/dbSchema.js:110-130) is not modelled. It is the same column
  mapping without `Extra`, and it is not used by the routes.
- Foreign-key listing in `getDatabaseSchema` (utils/dbSchema.js:75-100) is left out: it
  only logs, and its errors are ignored.
- Console logging everywhere, including the index report's text layout, is left out.
  The report is modelled as `(key, unique, columns)` lines.
- config/databases.js, index.js, scripts/exportSchema.js, routes/paypal.js and
  routes/store.js are not part of this model: they are I/O and thin SQL wrappers.
  `connectionStatus` is an input map.
- Identity.SteamReturn: the login flow keeps the decoder as written (48-bit mask). The
  model then stores and looks up the same `STEAM_1:Y:(Z + 2^31)` id as the code does.
  The corrected decoder is proved beside it (see Findings).
- Identity.SteamReturn: when `BigInt` throws, the exception is raised inside the
  asynchronous `verifyAssertion` callback (routes/auth.js:52, 73), outside the route's
  `try` (routes/auth.js:43, 116). No redirect is sent and the request is left without an
  answer. The model answers `None` and does not model the unanswered request or the
  process-level unhandled rejection (fatal by default since Node.js 15). Findings
  records this; Identity.SteamReturnCaught is the handler with the throw caught.
- Identity.SteamReturnCaught: the error redirect's message (the engine's text of the
  `SyntaxError`) is not modelled.
- App.PathOf: only origin-form request targets (`/path?query`) are modelled. For an
  absolute-form target (`GET http://host/api/x`), Express's `req.path` is the URL's
  pathname (`/api/x`), so the source leaves that URL unchanged, while App.Normalized
  would prefix the whole URL with `/api`.
- App.Cors: only the hand-written middleware (app.js:33-43) is modelled. The `cors()`
  package middleware that runs after it on non-OPTIONS requests (app.js:45) is not. It
  sets `Access-Control-Allow-Origin` again, to `CORS_ORIGIN` when set, otherwise to the
  request's `Origin` header when there is one, and adds `Vary: Origin`. So without
  `CORS_ORIGIN`, a cross-origin GET finally carries the caller's origin rather than the
  `*` that App.Cors and App.Origin state.
- DbSchema.GroupIndexes and DbSchema.IndexReport: the groups are kept in first-seen order
  of the key names. JavaScript's `Object.keys` lists names that are array indices (`"0"`,
  `"12"`) first, in ascending numeric order, so the report order differs when an index is
  named by digits. Names inherited from `Object.prototype` (`constructor`, `toString`,
  `__proto__`) are not modelled either: on those the source's `push` fails.
  Key names are kept as values, while property names are strings: a numeric `Key_name`
  and its decimal text would be one key in the source and two in the model (MySQL
  reports `Key_name` as text).
- Identity.Me: a failure inside getSteamUserData during `/me` is not separated from
  "no data". getSteamUserData catches its own errors, so it answers null either way.
- DbSchema.DatabaseSchema: the table names are given already extracted. How
  `Object.values(row)[0]` picks them from the `SHOW TABLES` rows is not modelled.

## Findings

| source | as written | input that shows it | evidently intended | confidence | as-written member | corrected member |
|---|---|---|---|---|---|---|
| routes/auth.js:205 | `accountId = steamId64 & 0xffffffffffff` keeps 48 bits, so the instance bit (bit 32) ends up in Z | 76561197960265728 decodes to `STEAM_1:0:2147483648`; `STEAM_0:0:100` encodes then decodes to `STEAM_1:0:2147483748` | mask with `0xffffffff` (Valve's account number is bits 0-31), so decode inverts encode: `STEAM_1:0:0` and `STEAM_1:0:100` | high (not executed) | SteamId.RoundTripTextAsWritten | SteamId.RoundTripTextCorrected |
| routes/auth.js:52-73 | `convertSteamId64ToSteamId(steamId64)` runs inside the async `verifyAssertion` callback, outside the route's `try`; any identifier not from Steam reaches `BigInt` unchanged and throws there | claimed identifier `https://example.org/id/x`, asserted by another OpenID provider: no redirect is sent, and the rejection is unhandled | the throw is caught and answered with the error redirect, like the route's other failures | medium (not executed) | Identity.ForeignClaimUnanswered | Identity.SteamReturnCaught |
