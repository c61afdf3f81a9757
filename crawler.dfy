/** The live-room resolution front end: given a room URL it picks the
    streaming platform whose token occurs in the URL's host, derives the room
    id with that platform's rule, and hands the id, the proxy and the cookie
    to the platform's resolver plugin, whose answer it returns as is. */
module Crawler {
  import opened Optional
  import opened Url

  // ---------------------------------------------------------------------------
  // Results and the values passed to plugins
  // ---------------------------------------------------------------------------

  /** Result codes. The front end itself only ever produces `InvalidUrl` and
      `NotSupport`; every other code comes from a plugin and is carried as an
      opaque number. */
  datatype ErrorCode = InvalidUrl | NotSupport | PluginCode(code: int)

  /** `{ code, liveUrls? }`, the shape every stage returns. */
  datatype LiveUrlsResult = LiveUrlsResult(code: ErrorCode, liveUrls: Option<seq<string>>)

  /** A room id as JavaScript produces it: a string, `null` (a missing query
      parameter) or `undefined` (a path index past the last piece). */
  datatype RoomId = Str(s: string) | Null | Undefined

  /** The request `{ roomUrl, proxy?, cookie? }`. */
  datatype LiveRequest = LiveRequest(roomUrl: string, proxy: Option<string>, cookie: Option<string>)

  /** The resolver plugins, one per supported platform. What they do is
      outside this model; `GetLiveUrls` receives their behaviour as a
      function. */
  datatype Plugin =
    | DouYinPlugin | BilibiliPlugin | CCPlugin | DouyuPlugin | HuyaPlugin
    | KuaishouPlugin | YoutubePlugin | TwitchPlugin | TiktokPlugin | WeiboPlugin
    | HuaJiaoPlugin | TaobaoPlugin | BigoPlugin | YYPlugin

  /** One invocation of a plugin: which plugin, and the room id, proxy and
      cookie it was given. */
  datatype PluginCall = PluginCall(plugin: Plugin, roomId: RoomId, proxy: Option<string>, cookie: Option<string>)

  // ---------------------------------------------------------------------------
  // Room-id extraction
  // ---------------------------------------------------------------------------

  /** The ways a platform derives its room id from the URL. */
  datatype RoomIdRule =
    | PathnameItem(index: nat)         // piece `index` of pathname.split('/')
    | QueryParam(name: string)          // searchParams.get(name)
    | QueryParamOrPathname(name: string) // searchParams.get(name) || piece 1
    | NumericOrNextItem                 // piece 1 if numeric, else piece 2

  /** `getPathnameItem(url, index)`: piece `index` of the pathname split on
      '/', or `undefined` past the last piece. */
  function GetPathnameItem(url: Url, index: nat): (r: RoomId)
    ensures r.Undefined? <==> index > Slashes(url.pathname)
    ensures r.Str? ==> '/' !in r.s
    ensures !r.Null?
  {
    SplitJoin(url.pathname);
    if index < |Split(url.pathname)| then Str(Split(url.pathname)[index]) else Undefined
  }

  /** `searchParams.get(name)` as a room id: `null` when absent. */
  function GetQueryParam(url: Url, name: string): (r: RoomId)
    ensures r.Null? <==> forall j :: 0 <= j < |url.query| ==> url.query[j].0 != name
    ensures forall i :: FirstNamed(url.query, name, i) ==> r == Str(url.query[i].1)
  {
    QueryGetFirst(url.query, name);
    match QueryGet(url.query, name)
    case Some(v) => Str(v)
    case None => Null
  }

  /** `getYoutubeRoomId(url)`: the `v` query parameter. */
  function GetYoutubeRoomId(url: Url): (r: RoomId)
    ensures r.Null? <==> forall j :: 0 <= j < |url.query| ==> url.query[j].0 != "v"
    ensures forall i :: FirstNamed(url.query, "v", i) ==> r == Str(url.query[i].1)
  {
    GetQueryParam(url, "v")
  }

  /** JavaScript truthiness of a room id: a non-empty string. */
  predicate Truthy(id: RoomId)
  {
    id.Str? && id.s != ""
  }

  /** `!Number.isNaN(Number(x))`, simplified to: `x` is a string of decimal
      digits (the empty string counts, since `Number('')` is 0). `undefined`
      converts to NaN. */
  predicate IsNumeric(id: RoomId)
  {
    id.Str? && forall k :: 0 <= k < |id.s| ==> '0' <= id.s[k] <= '9'
  }

  /** The room id a rule derives from a parsed URL. */
  function ExtractRoomId(rule: RoomIdRule, url: Url): RoomId
  {
    match rule
    case PathnameItem(index) => GetPathnameItem(url, index)
    case QueryParam(name) => GetQueryParam(url, name)
    case QueryParamOrPathname(name) =>
      var q := GetQueryParam(url, name);
      if Truthy(q) then q else GetPathnameItem(url, 1)
    case NumericOrNextItem =>
      var first := GetPathnameItem(url, 1);
      if !IsNumeric(first) then GetPathnameItem(url, 2) else first
  }

  /** The query-or-path rule (douyu's, with `rid`) takes the first value of
      the parameter when that value is non-empty, and falls back to piece 1
      of the pathname when the parameter is absent or empty. */
  lemma QueryOrPathnameChoice(url: Url, name: string)
    ensures forall i :: FirstNamed(url.query, name, i) && url.query[i].1 != "" ==>
      ExtractRoomId(QueryParamOrPathname(name), url) == Str(url.query[i].1)
    ensures (forall j :: 0 <= j < |url.query| ==> url.query[j].0 != name) ==>
      ExtractRoomId(QueryParamOrPathname(name), url) == GetPathnameItem(url, 1)
    ensures forall i :: FirstNamed(url.query, name, i) && url.query[i].1 == "" ==>
      ExtractRoomId(QueryParamOrPathname(name), url) == GetPathnameItem(url, 1)
  {
  }

  /** The numeric-or-next rule (bigo's) keeps piece 1 when it is numeric and
      otherwise takes piece 2; a pathname with a single piece after the
      leading slash that is not numeric gives `undefined`. */
  lemma NumericOrNextChoice(url: Url)
    ensures IsNumeric(GetPathnameItem(url, 1)) ==>
      ExtractRoomId(NumericOrNextItem, url) == GetPathnameItem(url, 1)
    ensures !IsNumeric(GetPathnameItem(url, 1)) ==>
      ExtractRoomId(NumericOrNextItem, url) == GetPathnameItem(url, 2)
    ensures ExtractRoomId(NumericOrNextItem, url).Undefined? <==>
      Slashes(url.pathname) < 2 && !IsNumeric(GetPathnameItem(url, 1))
  {
  }

  /** https://www.huya.com/123456: huya's default rule reads piece 1.
      https://live.douyu.com/123456: douyu has no `rid` to read, so it falls
      back to piece 1 as well. */
  lemma PathnameExample()
    ensures ExtractRoomId(PlatformToFnMap["huya"].getRoomIdByUrl.value, Url("www.huya.com", "/123456", []))
      == Str("123456")
    ensures ExtractRoomId(PlatformToFnMap["douyu"].getRoomIdByUrl.value, Url("live.douyu.com", "/123456", []))
      == Str("123456")
  {
    assert PlatformToFnMap["huya"].getRoomIdByUrl.value == PathnameItem(1);
    assert PlatformToFnMap["douyu"].getRoomIdByUrl.value == QueryParamOrPathname("rid");
    var url := Url("live.douyu.com", "/123456", []);
    assert GetQueryParam(url, "rid") == Null;
    SplitLeadingSlash("123456");
    SplitNoSlash("123456");
  }

  /** https://www.douyu.com/topic?rid=98765: the query value wins over the
      path; https://www.youtube.com/watch?v=abc123XYZ reads `v`; a taobao URL
      without `liveId` gives `null`. */
  lemma QueryExamples()
    ensures ExtractRoomId(PlatformToFnMap["douyu"].getRoomIdByUrl.value,
                          Url("www.douyu.com", "/topic", [("rid", "98765")])) == Str("98765")
    ensures ExtractRoomId(PlatformToFnMap["youtube"].getRoomIdByUrl.value,
                          Url("www.youtube.com", "/watch", [("v", "abc123XYZ")])) == Str("abc123XYZ")
    ensures ExtractRoomId(PlatformToFnMap["taobao"].getRoomIdByUrl.value,
                          Url("tbzb.taobao.com", "/live", [("id", "1")])) == Null
  {
    assert PlatformToFnMap["douyu"].getRoomIdByUrl.value == QueryParamOrPathname("rid");
    assert PlatformToFnMap["youtube"].getRoomIdByUrl.value == QueryParam("v");
    assert PlatformToFnMap["taobao"].getRoomIdByUrl.value == QueryParam("liveId");
    assert FirstNamed([("rid", "98765")], "rid", 0);
    assert FirstNamed([("v", "abc123XYZ")], "v", 0);
  }

  /** https://www.bigo.tv/778899: a numeric piece 1 is used directly. */
  lemma NumericExample()
    ensures ExtractRoomId(PlatformToFnMap["bigo"].getRoomIdByUrl.value, Url("www.bigo.tv", "/778899", []))
      == Str("778899")
  {
    assert PlatformToFnMap["bigo"].getRoomIdByUrl.value == NumericOrNextItem;
    SplitLeadingSlash("778899");
    SplitNoSlash("778899");
    assert IsNumeric(Str("778899"));
  }

  /** https://www.bigo.tv/user/alice: piece 1 is not numeric, so piece 2. */
  lemma NextItemExample()
    ensures ExtractRoomId(PlatformToFnMap["bigo"].getRoomIdByUrl.value, Url("www.bigo.tv", "/user/alice", []))
      == Str("alice")
  {
    assert PlatformToFnMap["bigo"].getRoomIdByUrl.value == NumericOrNextItem;
    assert !IsNumeric(Str("user")) by { assert !('0' <= "user"[0] <= '9'); }
    assert "/" + "user" + "/" + "alice" == "/user/alice";
    NamedRoomTakesNextItem("www.bigo.tv", "user", "alice");
  }

  /** On `/a/b` with a non-numeric `a`, the numeric-or-next rule gives `b`. */
  lemma NamedRoomTakesNextItem(host: string, a: string, b: string)
    requires '/' !in a && '/' !in b && !IsNumeric(Str(a))
    ensures ExtractRoomId(NumericOrNextItem, Url(host, "/" + a + "/" + b, [])) == Str(b)
  {
    SplitTwoPieces(a, b);
  }

  /** weibo reads piece 5, which the pathname `/u/12` (pieces 0 to 2) does
      not have: the room id is `undefined`. */
  lemma ShortPathExample()
    ensures ExtractRoomId(PlatformToFnMap["weibo"].getRoomIdByUrl.value, Url("weibo.com", "/u/12", [])) == Undefined
  {
    assert PlatformToFnMap["weibo"].getRoomIdByUrl.value == PathnameItem(5);
    SplitTwoPieces("u", "12");
    assert "/" + "u" + "/" + "12" == "/u/12";
  }

  // ---------------------------------------------------------------------------
  // The platform table
  // ---------------------------------------------------------------------------

  /** `supportPlatform`: the tokens in the order they are tried. 'huya'
      appears twice. */
  const SupportPlatform: seq<string> := [
    "douyin", "bilibili", "cc", "douyu", "kuaishou", "huya", "youtube",
    "twitch", "tiktok", "weibo", "huajiao", "taobao", "bigo", "yy", "huya"
  ]

  /** An entry of `platformToFnMap`; either function could in principle be
      missing. */
  datatype FnEntry = FnEntry(getLiveUrlsFn: Option<Plugin>, getRoomIdByUrl: Option<RoomIdRule>)

  /** `platformToFnMap`. */
  const PlatformToFnMap: map<string, FnEntry> := map[
    "douyin" := FnEntry(Some(DouYinPlugin), Some(PathnameItem(1))),
    "bilibili" := FnEntry(Some(BilibiliPlugin), Some(PathnameItem(1))),
    "cc" := FnEntry(Some(CCPlugin), Some(PathnameItem(1))),
    "huya" := FnEntry(Some(HuyaPlugin), Some(PathnameItem(1))),
    "douyu" := FnEntry(Some(DouyuPlugin), Some(QueryParamOrPathname("rid"))),
    "kuaishou" := FnEntry(Some(KuaishouPlugin), Some(PathnameItem(2))),
    "youtube" := FnEntry(Some(YoutubePlugin), Some(QueryParam("v"))),
    "twitch" := FnEntry(Some(TwitchPlugin), Some(PathnameItem(1))),
    "tiktok" := FnEntry(Some(TiktokPlugin), Some(PathnameItem(1))),
    "weibo" := FnEntry(Some(WeiboPlugin), Some(PathnameItem(5))),
    "huajiao" := FnEntry(Some(HuaJiaoPlugin), Some(PathnameItem(2))),
    "taobao" := FnEntry(Some(TaobaoPlugin), Some(QueryParam("liveId"))),
    "bigo" := FnEntry(Some(BigoPlugin), Some(NumericOrNextItem)),
    "yy" := FnEntry(Some(YYPlugin), Some(PathnameItem(1)))
  ]

  /** Every token of `SupportPlatform` is a non-empty key of the table with
      both functions present, so neither the empty-string half of the
      falsy-platform test nor the missing-function test in `GetLiveUrls`
      can ever fire. */
  lemma RegistryComplete(p: string)
    requires p in SupportPlatform
    ensures p != "" && p in PlatformToFnMap
    ensures PlatformToFnMap[p].getLiveUrlsFn.Some? && PlatformToFnMap[p].getRoomIdByUrl.Some?
  {
  }

  /** The youtube entry's rule is `getYoutubeRoomId`. */
  lemma YoutubeRuleIsGetYoutubeRoomId(url: Url)
    ensures ExtractRoomId(PlatformToFnMap["youtube"].getRoomIdByUrl.value, url) == GetYoutubeRoomId(url)
  {
  }

  // ---------------------------------------------------------------------------
  // Classification: supportPlatform.find(p => host.includes(p))
  // ---------------------------------------------------------------------------

  /** The first token that occurs in `host`, or `None` (`undefined`). */
  function Find(tokens: seq<string>, host: string): Option<string>
    decreases |tokens|
  {
    if tokens == [] then None
    else if Includes(host, tokens[0]) then Some(tokens[0])
    else Find(tokens[1..], host)
  }

  /** Token `i` occurs in `host` and no earlier token does. */
  predicate FirstMatch(tokens: seq<string>, host: string, i: int)
  {
    0 <= i < |tokens| && Includes(host, tokens[i])
    && forall j :: 0 <= j < i ==> !Includes(host, tokens[j])
  }

  /** `Find` picks the lowest-index token that occurs in the host: it finds
      nothing exactly when no token occurs, and whatever it finds is the
      token at the unique first matching position. */
  lemma {:induction false} FindFirst(tokens: seq<string>, host: string)
    ensures Find(tokens, host).None? <==> forall j :: 0 <= j < |tokens| ==> !Includes(host, tokens[j])
    ensures forall i :: FirstMatch(tokens, host, i) ==> Find(tokens, host) == Some(tokens[i])
    ensures Find(tokens, host).Some? ==> exists i :: FirstMatch(tokens, host, i)
    decreases |tokens|
  {
    if tokens != [] {
      if Includes(host, tokens[0]) {
        assert FirstMatch(tokens, host, 0);
      } else {
        var rest := tokens[1..];
        FindFirst(rest, host);
        forall i | FirstMatch(tokens, host, i) ensures Find(tokens, host) == Some(tokens[i]) {
          assert FirstMatch(rest, host, i - 1);
        }
        if Find(tokens, host).Some? {
          var i :| FirstMatch(rest, host, i);
          assert FirstMatch(tokens, host, i + 1);
        }
        if forall j :: 0 <= j < |rest| ==> !Includes(host, rest[j]) {
          forall j | 0 <= j < |tokens| ensures !Includes(host, tokens[j]) {
            if j > 0 { assert tokens[j] == rest[j - 1]; }
          }
        }
      }
    }
  }

  /** Whatever `Find` returns is one of the tokens and occurs in the host. */
  lemma FindSound(tokens: seq<string>, host: string)
    ensures Find(tokens, host).Some? ==>
      Find(tokens, host).value in tokens && Includes(host, Find(tokens, host).value)
  {
    FindFirst(tokens, host);
  }

  /** A token that repeats an earlier one can never be the first match, so
      deleting it does not change what `Find` returns. */
  lemma {:induction false} FindIgnoresRepeat(tokens: seq<string>, host: string, j: nat, k: nat)
    requires j < k < |tokens| && tokens[j] == tokens[k]
    ensures Find(tokens[..k] + tokens[k + 1..], host) == Find(tokens, host)
    decreases |tokens|
  {
    var shorter := tokens[..k] + tokens[k + 1..];
    if j == 0 {
      assert shorter[0] == tokens[0];
      if !Includes(host, tokens[0]) {
        assert shorter[1..] == tokens[1..k] + tokens[k + 1..];
        assert Find(shorter[1..], host) == Find(tokens[1..], host) by {
          FindSkipsAbsent(tokens[1..], host, k - 1);
          assert tokens[1..][..k - 1] + tokens[1..][k..] == tokens[1..k] + tokens[k + 1..];
        }
      }
    } else {
      FindIgnoresRepeat(tokens[1..], host, j - 1, k - 1);
      assert shorter[0] == tokens[0];
      assert shorter[1..] == tokens[1..][..k - 1] + tokens[1..][k..];
    }
  }

  /** Deleting a token that does not occur in the host leaves `Find`
      unchanged. */
  lemma {:induction false} FindSkipsAbsent(tokens: seq<string>, host: string, k: nat)
    requires k < |tokens| && !Includes(host, tokens[k])
    ensures Find(tokens[..k] + tokens[k + 1..], host) == Find(tokens, host)
    decreases |tokens|
  {
    var shorter := tokens[..k] + tokens[k + 1..];
    if k == 0 {
      assert shorter == tokens[1..];
    } else {
      FindSkipsAbsent(tokens[1..], host, k - 1);
      assert shorter[0] == tokens[0];
      assert shorter[1..] == tokens[1..][..k - 1] + tokens[1..][k..];
    }
  }

  /** The second 'huya' of `SupportPlatform` is dead: dropping it gives the
      same platform for every host. */
  lemma DuplicateHuyaIsDead(host: string)
    ensures Find(SupportPlatform[..14], host) == Find(SupportPlatform, host)
  {
    FindIgnoresRepeat(SupportPlatform, host, 5, 14);
    assert SupportPlatform[..14] + SupportPlatform[15..] == SupportPlatform[..14];
  }

  // ---------------------------------------------------------------------------
  // getLiveUrls
  // ---------------------------------------------------------------------------

  /** `getLiveUrls(info)`. `parse` stands for `new URL(...)` (`None` where it
      throws) and `resolve` for the plugins. Besides the result it reports
      the plugin call it made, if any. */
  method GetLiveUrls(
    info: LiveRequest,
    parse: string -> Option<Url>,
    resolve: PluginCall -> LiveUrlsResult
  ) returns (res: LiveUrlsResult, call: Option<PluginCall>)
    // An unparsable URL fails with INVALID_URL and calls no plugin.
    ensures parse(info.roomUrl).None? ==>
      res == LiveUrlsResult(InvalidUrl, None) && call == None
    // A host that contains no token fails with NOT_SUPPORT and calls no plugin.
    ensures parse(info.roomUrl).Some? ==>
      var host := parse(info.roomUrl).value.host;
      (forall j :: 0 <= j < |SupportPlatform| ==> !Includes(host, SupportPlatform[j])) ==>
        res == LiveUrlsResult(NotSupport, None) && call == None
    // Otherwise the platform of the first matching token gets its room id,
    // with the request's proxy and cookie, and its result is returned as is.
    ensures parse(info.roomUrl).Some? ==>
      var url := parse(info.roomUrl).value;
      forall i :: FirstMatch(SupportPlatform, url.host, i) ==>
        var entry := PlatformToFnMap[SupportPlatform[i]];
        && call == Some(PluginCall(entry.getLiveUrlsFn.value,
                                   ExtractRoomId(entry.getRoomIdByUrl.value, url),
                                   info.proxy, info.cookie))
        && res == resolve(call.value)
    // A result that no plugin produced is one of the two local failures.
    ensures call.None? ==> res.code in {InvalidUrl, NotSupport} && res.liveUrls.None?
    ensures call.Some? ==> res == resolve(call.value)
  {
    var url := parse(info.roomUrl);
    if url.None? {
      return LiveUrlsResult(InvalidUrl, None), None;
    }
    var host := url.value.host;

    var platform := Find(SupportPlatform, host);
    FindFirst(SupportPlatform, host);
    FindSound(SupportPlatform, host);
    if platform.None? || platform.value == "" {
      return LiveUrlsResult(NotSupport, None), None;
    }

    RegistryComplete(platform.value);
    var entry := PlatformToFnMap[platform.value];
    if entry.getLiveUrlsFn.None? || entry.getRoomIdByUrl.None? {
      return LiveUrlsResult(NotSupport, None), None;
    }
    var roomId := ExtractRoomId(entry.getRoomIdByUrl.value, url.value);

    call := Some(PluginCall(entry.getLiveUrlsFn.value, roomId, info.proxy, info.cookie));
    res := resolve(call.value);
  }
}
