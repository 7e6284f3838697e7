/** The post-processing in getSteamUserData: the name and avatar candidates scraped
    from the Steam XML and HTML pages are cleaned and chained with `||`.  The network
    fetches and the regular expressions that capture the candidates are inputs. */
module SteamProfile {
  import opened Js

  // ---------------------------------------------------------------- avatar URLs

  /** `/\?.*$/`: a `?` followed by no line terminator up to the end of the text. */
  function QueryAt(s: string, i: nat): Option<nat> {
    if i < |s| && s[i] == '?' && NoLineTerminator(s[i + 1..]) then Some(|s|) else None
  }

  /** `avatar.replace(/\?.*$/, '')` */
  function StripQuery(s: string): (r: string)
    ensures |r| <= |s| && r == s[..|r|]
    ensures r == s <==> forall j :: 0 <= j < |s| ==> QueryAt(s, j).None?
    ensures r != s ==> s[|r|] == '?' && NoLineTerminator(s[|r| + 1..])
    ensures forall j :: 0 <= j < |r| ==> QueryAt(s, j).None?
  {
    assert MatchAt(QueryAt, s, |s|).None?;
    assert forall j :: 0 <= j <= |s| ==> MatchAt(QueryAt, s, j) == QueryAt(s, j);
    Replace(s, QueryAt, "")
  }

  /** Stripping the query a second time changes nothing: the cut `?` was the first one
      after the last line terminator. */
  lemma StripQueryIdempotent(s: string)
    ensures StripQuery(StripQuery(s)) == StripQuery(s)
  {
    var r := StripQuery(s);
    if r != s {
      assert forall q :: |r| < q < |s| ==> s[|r| + 1..][q - |r| - 1] == s[q];
      forall j | 0 <= j < |r| && r[j] == '?' ensures !NoLineTerminator(r[j + 1..]) {
        assert s[j] == '?' && QueryAt(s, j).None?;
        var p :| 0 <= p < |s[j + 1..]| && IsLineTerminator(s[j + 1..][p]);
        assert s[j + 1..][p] == s[j + 1 + p];
        assert j + 1 + p < |r|;
        assert r[j + 1..][p] == s[j + 1 + p];
      }
    }
  }

  /** For a URL on one line the query starts at the first `?`. */
  lemma StripQueryFirstMark(s: string)
    requires NoLineTerminator(s)
    ensures '?' !in StripQuery(s)
    ensures StripQuery(s) != s ==> s == StripQuery(s) + s[|StripQuery(s)|..] && s[|StripQuery(s)|] == '?'
  {
    var r := StripQuery(s);
    forall j | 0 <= j < |r| ensures r[j] != '?' {
      assert QueryAt(s, j).None?;
      assert NoLineTerminator(s[j + 1..]);
    }
  }

  /** `/_[a-z]+\.jpg$/i`: an underscore, one or more letters and `.jpg` ending the text. */
  function SizeSuffixAt(s: string, i: nat): Option<nat> {
    if i + 6 <= |s| && s[i] == '_' && AllLetters(s[i + 1..|s| - 4]) && EqualsIgnoreCase(s[|s| - 4..], ".jpg")
    then Some(|s|) else None
  }

  /** `avatar.replace(/_[a-z]+\.jpg$/i, '.jpg')`: `photo_full.jpg` becomes `photo.jpg`. */
  function StripSizeSuffix(s: string): (r: string)
    ensures (forall j :: 0 <= j < |s| ==> SizeSuffixAt(s, j).None?) ==> r == s
    ensures forall i :: 0 <= i < |s| && SizeSuffixAt(s, i).Some? ==> r == s[..i] + ".jpg"
  {
    assert MatchAt(SizeSuffixAt, s, |s|).None?;
    assert forall j :: 0 <= j <= |s| ==> MatchAt(SizeSuffixAt, s, j) == SizeSuffixAt(s, j);
    forall i, j | 0 <= j < i < |s| && SizeSuffixAt(s, i).Some? ensures SizeSuffixAt(s, j).None? {
      assert !IsAsciiLetter(s[i]);
      assert s[j + 1..|s| - 4][i - j - 1] == s[i];
    }
    Replace(s, SizeSuffixAt, ".jpg")
  }

  /** The clean-up applied to every avatar URL the scraper finds. */
  function CleanAvatar(s: string): string {
    StripSizeSuffix(StripQuery(s))
  }

  /** A query after an avatar path on one line is cut at its `?`. */
  lemma StripQueryOf(path: string, query: string)
    requires '?' !in path && NoLineTerminator(query)
    ensures StripQuery(path + "?" + query) == path
  {
    var s := path + "?" + query;
    assert s[|path|] == '?' && s[|path| + 1..] == query;
    assert QueryAt(s, |path|).Some?;
    forall j | 0 <= j < |path| ensures QueryAt(s, j).None? {
      assert s[j] == path[j];
    }
  }

  /** The size suffix replaced: `name_full.jpg` (any case of `.jpg`) becomes `name.jpg`. */
  lemma StripSizeSuffixOf(base: string, size: string, ext: string)
    requires size != [] && AllLetters(size) && |ext| == 4 && Lower(ext) == ".jpg"
    ensures StripSizeSuffix(base + "_" + size + ext) == base + ".jpg"
  {
    var s := base + "_" + size + ext;
    assert s[|base|] == '_';
    assert s[|base| + 1..|s| - 4] == size;
    assert s[|s| - 4..] == ext;
    assert SizeSuffixAt(s, |base|).Some?;
    assert s[..|base|] == base;
  }

  /** A URL that does not end in `.jpg` keeps its name. */
  lemma StripSizeSuffixNotJpg(s: string)
    requires |s| < 4 || Lower(s[|s| - 4..]) != ".jpg"
    ensures StripSizeSuffix(s) == s
  {
  }

  /** `'https://steamcdn-a.akamaihd.net' + avatar` unless it already starts with `http`. */
  function CdnUrl(avatar: string): (r: string)
    ensures StartsWith(r, "http")
    ensures StartsWith(avatar, "http") ==> r == avatar
    ensures !StartsWith(avatar, "http") ==> r == "https://steamcdn-a.akamaihd.net" + avatar
  {
    if StartsWith(avatar, "http") then avatar
    else
      var host := "https://" + "steamcdn-a." + "akamaihd.net";
      assert (host + avatar)[..4] == "http";
      host + avatar
  }

  // ---------------------------------------------------------------- page titles

  // The regular expression `/Steam Community\s*::\s*/i`.
  function SitePrefixAt(s: string, i: nat): Option<nat> {
    if i + 15 <= |s| && EqualsIgnoreCase(s[i..i + 15], "steam community") then
      var j := i + 15 + SpaceRun(s[i + 15..]);
      if j + 2 <= |s| && s[j..j + 2] == "::" then Some(j + 2 + SpaceRun(s[j + 2..])) else None
    else None
  }

  // The regular expression `/\s*-\s*Steam Community/i`.
  function SiteSuffixAt(s: string, i: nat): Option<nat> {
    if i <= |s| then
      var j := i + SpaceRun(s[i..]);
      if j < |s| && s[j] == '-' then
        var k := j + 1 + SpaceRun(s[j + 1..]);
        if k + 15 <= |s| && EqualsIgnoreCase(s[k..k + 15], "steam community") then Some(k + 15) else None
      else None
    else None
  }

  /** A title naming an error page (`toLowerCase().includes`). */
  predicate ErrorTitle(t: string) {
    Contains(Lower(t), "error") || Contains(Lower(t), "not found")
  }

  /** The title without the site name: the leftmost `Steam Community ::` and then the
      leftmost `- Steam Community` are removed, and the rest is trimmed. */
  function DropSiteName(raw: string): (r: string)
    ensures r == [] || (!IsSpace(r[0]) && !IsSpace(r[|r| - 1]))
  {
    Trim(Replace(Replace(raw, SitePrefixAt, ""), SiteSuffixAt, ""))
  }

  /** The name read from `<title>`: nothing for an error page, otherwise the title
      without the site name. */
  function TitleName(title: Option<string>): (r: Option<string>)
    ensures r.Some? <==> title.Some? && !ErrorTitle(Trim(title.value))
    ensures r.Some? ==> r.value == DropSiteName(Trim(title.value))
  {
    match title
    case None => None
    case Some(t) =>
      var raw := Trim(t);
      if ErrorTitle(raw) then None else Some(DropSiteName(raw))
  }

  /** The site name in its own spelling matches case-insensitively. */
  lemma SiteNameFolds()
    ensures EqualsIgnoreCase("Steam Community", "steam community")
  {
    var a, b := "Steam Community", "steam community";
    forall i | 0 <= i < 15
      ensures Lower(a)[i] == Lower(b)[i]
    {
    }
  }

  /** A single white-space character before a non-space is what a greedy `\s*` takes. */
  lemma SpaceRunOne(t: string)
    requires |t| >= 2 && IsSpace(t[0]) && !IsSpace(t[1])
    ensures SpaceRun(t) == 1
  {
    assert TrimStart(t[1..]) == t[1..];
  }

  /** `Steam Community :: ` is matched as a whole, with the space after it. */
  lemma SitePrefixOfProfile(name: string)
    requires name != [] && !IsSpace(name[0])
    ensures SitePrefixAt("Steam Community :: " + name, 0) == Some(19)
  {
    var s := "Steam Community :: " + name;
    assert s[0..15] == "Steam Community";
    SiteNameFolds();
    var rest := s[15..];
    assert rest[0] == ' ' && rest[1] == ':';
    SpaceRunOne(rest);
    assert s[16..18] == "::";
    var tail := s[18..];
    assert tail[0] == ' ' && tail[1] == name[0];
    SpaceRunOne(tail);
  }

  /** A text without a dash has no ` - Steam Community` to remove. */
  lemma NoSiteSuffix(t: string)
    requires '-' !in t
    ensures forall i :: 0 <= i <= |t| ==> SiteSuffixAt(t, i).None?
  {
    forall i | 0 <= i <= |t| ensures SiteSuffixAt(t, i).None? {
      var j := i + SpaceRun(t[i..]);
      assert j < |t| ==> t[j] in t;
    }
  }

  lemma DropSitePrefixOfProfile(name: string)
    requires name != [] && !IsSpace(name[0])
    ensures Replace("Steam Community :: " + name, SitePrefixAt, "") == name
  {
    var s := "Steam Community :: " + name;
    SitePrefixOfProfile(name);
    ReplaceAtStart(s, SitePrefixAt, "");
    assert s[19..] == name;
  }

  /** The profile title of a player: `Steam Community :: <name>` gives the name, for
      every name in which `- Steam Community` does not occur (NoSiteSuffix: every name
      without a dash). */
  lemma DropSiteNameOfProfile(name: string)
    requires name != [] && !IsSpace(name[0]) && !IsSpace(name[|name| - 1])
    requires forall i :: 0 <= i <= |name| ==> SiteSuffixAt(name, i).None?
    ensures DropSiteName("Steam Community :: " + name) == name
  {
    DropSitePrefixOfProfile(name);
    ReplaceNoMatch(name, SiteSuffixAt, "");
    TrimUnpadded(name);
  }

  // ---------------------------------------------------------------- the scraper

  /** What the XML endpoint gave: a thrown request, or the status, the body and the
      `<steamID>` / `<avatarFull>` captures. */
  datatype XmlFetch =
    | XmlThrew
    | XmlPage(status: int, body: string, nameCapture: Option<string>, avatarCapture: Option<string>)

  /** `rgProfileData` as parsed from the page (missing or unparsable is `None`). */
  datatype ProfileData = ProfileData(strPersonaName: Option<string>, strAvatarFull: Option<string>)

  /** What the HTML profile page gave: a thrown request, or the captures of its
      `og:title`, `<title>`, `actual_persona_name`, `og:image` and `playerAvatar`. */
  datatype HtmlFetch =
    | HtmlThrew
    | HtmlPage(ogTitle: Option<string>, title: Option<string>, personaName: Option<string>,
               ogImage: Option<string>, playerAvatar: Option<string>, profile: Option<ProfileData>)

  /** `{ name, avatar }` */
  datatype SteamData = SteamData(name: Option<string>, avatar: Option<string>)

  function MapTrim(s: Option<string>): Option<string> {
    match s case None => None case Some(v) => Some(Trim(v))
  }

  /** The XML answer as the first method reads it. */
  function XmlData(x: XmlFetch): (d: SteamData)
    requires x.XmlPage?
    ensures d.name == MapTrim(x.nameCapture)
    ensures Present(d.avatar) ==> x.avatarCapture.Some?
    ensures Present(MapTrim(x.avatarCapture)) ==> d.avatar == Some(CleanAvatar(Trim(x.avatarCapture.value)))
    ensures !Present(MapTrim(x.avatarCapture)) ==> d.avatar == MapTrim(x.avatarCapture)
  {
    var avatar := MapTrim(x.avatarCapture);
    SteamData(MapTrim(x.nameCapture), if Present(avatar) then Some(CleanAvatar(avatar.value)) else avatar)
  }

  /** The first method answers: a 200 whose body does not mention `Error` and whose
      name is present and not `Error`. */
  predicate XmlAccepted(x: XmlFetch) {
    x.XmlPage? && !Contains(x.body, "Error") && x.status == 200
    && Present(XmlData(x).name) && XmlData(x).name.value != "Error"
  }

  /** `rgProfileData.strPersonaName`, when the page carries the object. */
  function ProfileName(p: Option<ProfileData>): Option<string> {
    if p.Some? then p.value.strPersonaName else None
  }

  /** `rgProfileData.strAvatarFull` cleaned, when it is present. */
  function ProfileAvatar(p: Option<ProfileData>): Option<string> {
    if p.Some? && Present(p.value.strAvatarFull) then Some(CleanAvatar(p.value.strAvatarFull.value)) else None
  }

  function MapClean(s: Option<string>): Option<string> {
    match s case None => None case Some(v) => Some(CleanAvatar(v))
  }

  /** `playerAvatar` cleaned and made absolute. */
  function MapCdn(s: Option<string>): (r: Option<string>)
    ensures s.Some? ==> Present(r)
  {
    match s case None => None case Some(v) => Some(CdnUrl(CleanAvatar(v)))
  }

  /** The name candidates of the HTML page, in the order they are tried. */
  function NameCandidates(h: HtmlFetch): seq<Option<string>>
    requires h.HtmlPage?
  {
    [MapTrim(h.ogTitle), TitleName(h.title), MapTrim(h.personaName), ProfileName(h.profile)]
  }

  /** The avatar candidates of the HTML page, in the order they are tried. */
  function AvatarCandidates(h: HtmlFetch): seq<Option<string>>
    requires h.HtmlPage?
  {
    [MapClean(h.ogImage), MapCdn(h.playerAvatar), ProfileAvatar(h.profile)]
  }

  /** What getSteamUserData answers for an id, given the XML answer and the page: null
      for an empty id; an accepted XML answer wins; after that, null when the page
      request throws, else the first present name and the first present avatar among
      the page's candidates. */
  function SteamUserData(steamId64: string, xml: XmlFetch, html: HtmlFetch): Option<SteamData> {
    if steamId64 == "" then None
    else if XmlAccepted(xml) then Some(XmlData(xml))
    else if html.HtmlThrew? then None
    else Some(SteamData(FirstPresent(NameCandidates(html)), FirstPresent(AvatarCandidates(html))))
  }

  /** getSteamUserData: `None` is the source's `null`. */
  method GetSteamUserData(steamId64: string, xml: XmlFetch, html: HtmlFetch) returns (r: Option<SteamData>)
    ensures r == SteamUserData(steamId64, xml, html)
  {
    if steamId64 == "" {
      return None;
    }
    // method 1: the XML endpoint
    if xml.XmlPage? {
      if Contains(xml.body, "Error") || xml.status != 200 {
      } else if xml.nameCapture.Some? || xml.avatarCapture.Some? {
        var avatar := MapTrim(xml.avatarCapture);
        if Present(avatar) {
          avatar := Some(CleanAvatar(avatar.value));
        }
        var name := MapTrim(xml.nameCapture);
        assert SteamData(name, avatar) == XmlData(xml);
        if Present(name) && name.value != "Error" {
          assert XmlAccepted(xml);
          return Some(SteamData(name, avatar));
        }
      }
    }
    assert !XmlAccepted(xml);
    // method 2: the HTML profile page
    if html.HtmlThrew? {
      return None;
    }
    var data := HtmlProfile(html);
    r := Some(data);
  }

  /** The name read from the page: `og:title`, else the `<title>` of a page that is
      not an error page, else `actual_persona_name`. */
  method HtmlName(html: HtmlFetch) returns (name: Option<string>)
    requires html.HtmlPage?
    ensures FirstPresent(NameCandidates(html)) == if Present(name) then name else FirstPresent(NameCandidates(html)[3..])
  {
    ghost var names := NameCandidates(html);
    assert names[0] == MapTrim(html.ogTitle) && names[1] == TitleName(html.title);
    assert names[2] == MapTrim(html.personaName);
    name := None;
    if html.ogTitle.Some? {
      name := Some(Trim(html.ogTitle.value));
    }
    FirstPresentAdvance(names, 0, None, name);
    ghost var afterTitle := name;
    if !Present(name) && html.title.Some? {
      var rawTitle := Trim(html.title.value);
      if !ErrorTitle(rawTitle) {
        name := Some(DropSiteName(rawTitle));
      }
      assert name == TitleName(html.title) || (name == afterTitle && TitleName(html.title).None?);
    }
    FirstPresentAdvance(names, 1, afterTitle, name);
    ghost var afterPersona := name;
    if !Present(name) && html.personaName.Some? {
      name := Some(Trim(html.personaName.value));
    }
    FirstPresentAdvance(names, 2, afterPersona, name);
  }

  /** The avatar read from the page: `og:image`, else the `playerAvatar` image made
      absolute, each cleaned. */
  method HtmlAvatar(html: HtmlFetch) returns (avatar: Option<string>)
    requires html.HtmlPage?
    ensures FirstPresent(AvatarCandidates(html)) == if Present(avatar) then avatar else FirstPresent(AvatarCandidates(html)[2..])
  {
    ghost var avatars := AvatarCandidates(html);
    avatar := None;
    if html.ogImage.Some? {
      avatar := Some(CleanAvatar(html.ogImage.value));
    }
    FirstPresentAdvance(avatars, 0, None, avatar);
    ghost var afterImage := avatar;
    if !Present(avatar) && html.playerAvatar.Some? {
      var a := CleanAvatar(html.playerAvatar.value);
      ghost var cleaned := a;
      if !StartsWith(a, "http") {
        a := CdnUrl(a);
      }
      assert a == CdnUrl(cleaned);
      avatar := Some(a);
    }
    FirstPresentAdvance(avatars, 1, afterImage, avatar);
  }

  /** The second method of getSteamUserData, on a page that was fetched: the name and
      the avatar, completed from `rgProfileData` when one of them is missing. */
  method HtmlProfile(html: HtmlFetch) returns (d: SteamData)
    requires html.HtmlPage?
    ensures d == SteamData(FirstPresent(NameCandidates(html)), FirstPresent(AvatarCandidates(html)))
  {
    var name := HtmlName(html);
    var avatar := HtmlAvatar(html);
    ghost var fromPage, imageFromPage := name, avatar;
    if (!Present(avatar) || !Present(name)) && html.profile.Some? {
      var profile := html.profile.value;
      if !Present(name) && Present(profile.strPersonaName) {
        name := profile.strPersonaName;
      }
      if !Present(avatar) && Present(profile.strAvatarFull) {
        avatar := Some(CleanAvatar(profile.strAvatarFull.value));
      }
    }
    FirstPresentAdvance(NameCandidates(html), 3, fromPage, name);
    FirstPresentAdvance(AvatarCandidates(html), 2, imageFromPage, avatar);
    assert NameCandidates(html)[4..] == [] && AvatarCandidates(html)[3..] == [];
    d := SteamData(if Present(name) then name else None, if Present(avatar) then avatar else None);
  }

  /** The HTML method never answers an empty string: a field is a non-empty text or
      `null`, while the XML method may answer an empty avatar. */
  lemma HtmlFieldsPresentOrNull(h: HtmlFetch)
    requires h.HtmlPage?
    ensures var n := FirstPresent(NameCandidates(h)); n.None? || n.value != ""
    ensures var a := FirstPresent(AvatarCandidates(h)); a.None? || a.value != ""
    ensures h.playerAvatar.Some? && !Present(AvatarCandidates(h)[0]) ==>
      FirstPresent(AvatarCandidates(h)) == Some(CdnUrl(CleanAvatar(h.playerAvatar.value)))
  {
    var c := AvatarCandidates(h);
    if h.playerAvatar.Some? && !Present(c[0]) {
      assert Present(c[1]) by {
        var u := CdnUrl(CleanAvatar(h.playerAvatar.value));
        assert StartsWith(u, "http");
      }
      assert FirstPresent(c) == FirstPresent(c[1..]);
    }
  }
}
