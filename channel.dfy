/** The channel service (app/Services/ChannelService.php): who may stream a
    channel, what a granted stream records, and how the streaming token is
    attached to the channel's playlist URL. */
module Channels {
  import opened Base
  import opened Users
  import opened WatchHistory

  /** `gflix.streaming.token_lifetime` is not configured, so the default of
      3600 seconds applies. */
  const TokenLifetime: nat := 3600

  /** `canAccessChannel($user, $channel)`: the active-subscription check or a
      trial in the future. The second disjunct is already part of the first,
      so access is exactly `hasActiveSubscription()`, whatever the channel. */
  function CanAccessChannel(a: Account, channelId: nat, now: Instant): (r: bool)
    ensures r <==> HasActiveSubscription(a, now)
  {
    HasActiveSubscription(a, now) || SetAndFuture(a.trialEndsAt, now)
  }

  /** The payload `generateStreamingToken` encrypts. */
  datatype TokenData = TokenData(channelId: nat, userId: nat, expires: Instant)

  /** The `expires` field: issue time plus the token lifetime. */
  function TokenExpiry(now: Instant): (t: Instant)
    ensures t - now == 3600 && t > now
  {
    now + TokenLifetime
  }

  // ---------------------------------------------------------------------
  // appendTokenToUrl

  /** Index of the first `c` in `s`, or `|s|` when there is none. */
  function IndexOf(s: string, c: char): (k: nat)
    ensures k <= |s|
    ensures k < |s| ==> s[k] == c
    ensures forall j :: 0 <= j < k ==> s[j] != c
  {
    if s == [] then 0 else if s[0] == c then 0 else 1 + IndexOf(s[1..], c)
  }

  /** `parse_url($url, PHP_URL_QUERY)`: the text after the first `?` that
      comes before any `#`, up to that `#`; no query when there is no such
      `?`. */
  function QueryPart(url: string): (q: Option<string>)
    ensures q.Some? <==> '?' in url[..IndexOf(url, '#')]
    ensures q.Some? ==>
      var h := IndexOf(url, '#');
      var k := h - |q.value| - 1;
      && 0 <= k && url[k] == '?' && '?' !in url[..k]
      && url[k + 1..h] == q.value && '#' !in q.value
  {
    var beforeFragment := url[..IndexOf(url, '#')];
    var k := IndexOf(beforeFragment, '?');
    if k < |beforeFragment| then Some(beforeFragment[k + 1..]) else None
  }

  /** PHP truthiness of the query: present, and neither `""` nor `"0"`. */
  predicate HasTruthyQuery(url: string)
  {
    QueryPart(url).Some? && QueryPart(url).value != "" && QueryPart(url).value != "0"
  }

  /** `appendTokenToUrl($url, $token)`: the url unchanged, then `&` when it
      has a (truthy) query and `?` otherwise, then `token=` and the token. */
  function AppendTokenToUrl(url: string, token: string): (r: string)
    ensures |r| == |url| + 7 + |token|
    ensures r[..|url|] == url
    ensures r[|url|] == (if HasTruthyQuery(url) then '&' else '?')
    ensures r[|url| + 1..] == "token=" + token
  {
    var separator := if HasTruthyQuery(url) then '&' else '?';
    url + [separator] + "token=" + token
  }

  /** The token and the original url are both recovered from the result. */
  lemma {:induction false} AppendTokenRecovers(url: string, token: string)
    ensures var r := AppendTokenToUrl(url, token);
      r[..|url|] == url && r[|url| + 7..] == token
  {
    var r := AppendTokenToUrl(url, token);
    assert r[|url| + 7..] == r[|url| + 1..][6..];
  }

  /** Without fragments, the result always has a non-empty query ending in
      `token=<token>`, so appending a second token uses `&`. */
  lemma {:induction false} AppendedUrlHasQuery(url: string, token: string)
    requires '#' !in url && '#' !in token
    ensures var r := AppendTokenToUrl(url, token);
      && QueryPart(r).Some?
      && |QueryPart(r).value| >= 6 + |token|
      && QueryPart(r).value[|QueryPart(r).value| - 6 - |token|..] == "token=" + token
      && HasTruthyQuery(r)
      && AppendTokenToUrl(r, token)[|r|] == '&'
  {
    var r := AppendTokenToUrl(url, token);
    var tail := "token=" + token;
    assert r == url + [r[|url|]] + tail;
    assert '#' !in tail;
    assert '#' !in r by {
      forall j | 0 <= j < |r|
        ensures r[j] != '#'
      {
        if j < |url| {
          assert r[j] == url[j];
        } else if j > |url| {
          assert r[j] == tail[j - |url| - 1];
        }
      }
    }
    assert IndexOf(r, '#') == |r|;
    assert r[..|r|] == r;
    var q := QueryPart(r).value;
    if '?' in url {
      var k := IndexOf(url, '?');
      assert r[k] == '?';
      assert IndexOf(r, '?') == k;
      assert q == r[k + 1..];
    } else {
      assert r[|url|] == '?';
      forall j | 0 <= j < |url|
        ensures r[j] != '?'
      {
        assert r[j] == url[j];
      }
      assert IndexOf(r, '?') == |url|;
      assert q == tail;
    }
    assert q[|q| - |tail|..] == tail;
    assert q != "" && q != "0";
  }

  /** A url with a fragment keeps its query: the token lands after the `#`,
      in the fragment, and is not part of the query a server would see. */
  lemma {:induction false} TokenAfterFragment(url: string, token: string)
    requires '#' in url
    ensures QueryPart(AppendTokenToUrl(url, token)) == QueryPart(url)
  {
    var r := AppendTokenToUrl(url, token);
    var h := IndexOf(url, '#');
    assert url[h] == '#';
    assert r[h] == '#';
    forall j | 0 <= j < h
      ensures r[j] != '#'
    {
      assert r[j] == url[j];
    }
    assert IndexOf(r, '#') == h;
    assert r[..h] == url[..h];
  }

  // ---------------------------------------------------------------------
  // getStreamingUrl

  /** An `iptv_channels` row: its playlist link and its view counter. */
  class IptvChannel {
    const id: nat
    const m3u8Link: string
    var viewCount: int

    constructor (id: nat, m3u8Link: string)
      ensures this.id == id && this.m3u8Link == m3u8Link && viewCount == 0
    {
      this.id := id;
      this.m3u8Link := m3u8Link;
      viewCount := 0;
    }

    /** `incrementViewCount()`. */
    method IncrementViewCount()
      modifies this
      ensures viewCount == old(viewCount) + 1
    {
      viewCount := viewCount + 1;
    }
  }

  datatype ChannelError = SubscriptionRequired

  /** The array `getStreamingUrl` returns. */
  datatype StreamGrant = StreamGrant(streamUrl: string, token: string, expiresIn: nat)

  /** What `getStreamingUrl` answers, given the `encrypt` of the token
      payload: a refusal without a subscription; otherwise the tokenised url,
      the token, and the lifetime. */
  function StreamingUrl(a: Account, userId: nat, channelId: nat, m3u8Link: string, now: Instant,
                        encrypt: TokenData -> string): (r: Result<StreamGrant, ChannelError>)
    ensures r.Success? <==> HasActiveSubscription(a, now)
    ensures r.Success? ==>
      && r.value.token == encrypt(TokenData(channelId, userId, TokenExpiry(now)))
      && |r.value.streamUrl| == |m3u8Link| + 7 + |r.value.token|
      && r.value.streamUrl[..|m3u8Link|] == m3u8Link
      && r.value.streamUrl[|m3u8Link| + 7..] == r.value.token
      && r.value.expiresIn == TokenLifetime
  {
    if !CanAccessChannel(a, channelId, now) then Failure(SubscriptionRequired)
    else
      var token := encrypt(TokenData(channelId, userId, TokenExpiry(now)));
      AppendTokenRecovers(m3u8Link, token);
      Success(StreamGrant(AppendTokenToUrl(m3u8Link, token), token, TokenLifetime))
  }

  /** `getStreamingUrl($channel, $user)`: a refused request records nothing;
      a granted one appends exactly one watch-history row for this user and
      channel and adds exactly one view. The user is only read. */
  method GetStreamingUrl(channel: IptvChannel, user: User, log: WatchHistoryLog, deviceInfo: string,
                         ipAddress: Option<string>, now: Instant, encrypt: TokenData -> string)
    returns (r: Result<StreamGrant, ChannelError>)
    modifies channel, log
    ensures r == StreamingUrl(user.Snapshot(), user.id, channel.id, channel.m3u8Link, now, encrypt)
    ensures r.Failure? ==> log.entries == old(log.entries) && channel.viewCount == old(channel.viewCount)
    ensures r.Success? ==>
      && log.entries == old(log.entries) + [WatchEntry(user.id, channel.id, now, None, Some(deviceInfo), ipAddress)]
      && channel.viewCount == old(channel.viewCount) + 1
  {
    if !CanAccessChannel(user.Snapshot(), channel.id, now) {
      return Failure(SubscriptionRequired);
    }
    var token := encrypt(TokenData(channel.id, user.id, TokenExpiry(now)));
    var _ := log.CreateEntry(user.id, channel.id, Some(deviceInfo), ipAddress, now);
    channel.IncrementViewCount();
    r := Success(StreamGrant(AppendTokenToUrl(channel.m3u8Link, token), token, TokenLifetime));
  }
}
