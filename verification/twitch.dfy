/**
 * The Twitch client: obtains an app access token with the client
 * credentials, asks the streams endpoint for the live streams of the given
 * users and normalises each to StreamData.
 *
 * The HTTP calls and the JSON decoding are not modelled: each response is
 * an input, already decoded or failed, and the method reports the requests
 * it issues, so that "no request is made" can be stated.
 */
module Twitch {
  import opened Outcomes
  import opened Strings
  import opened Stream

  // ---------------------------------------------------------------------
  // Decoded responses

  datatype TokenResponse = TokenResponse(accessToken: string, expiresIn: int, tokenType: string)

  datatype TwitchStream = TwitchStream(
    id: string,
    userId: string,
    userName: string,
    streamType: string,
    title: string,
    startedAt: string,
    thumbnailUrl: string)

  datatype StreamsResponse = StreamsResponse(data: seq<TwitchStream>)

  /**
   * What became of the streams query: the request could not be built from
   * its URL, the call failed, or an answer came back with a status code and
   * a body that decoded (Some) or did not (None).
   */
  datatype StreamsReply = InvalidRequest | Unreachable | Answer(statusCode: int, body: Option<StreamsResponse>)

  /** The ways GetTwitchStreams fails; a failed call keeps its cause, as Go's `%w` wraps it. */
  datatype TwitchError =
    | CredentialsMissing
    | TokenRequestFailed(cause: FetchError)
    | TokenMissing
    | RequestBuildFailed
    | StreamsCallFailed
    | ErrorStatus(statusCode: int)
    | StreamsDecodeFailed

  // ---------------------------------------------------------------------
  // Requests

  const ApiUrl := "https://api.twitch.tv/helix"
  const AuthUrl := "https://id.twitch.tv/oauth2"
  const ChannelPrefix := "https://www.twitch.tv/"
  const StatusOk := 200

  /** The client-credentials token request. */
  function TokenRequest(clientId: string, clientSecret: string): (r: Request)
  {
    Request("POST", AuthUrl + "/token?client_id=" + clientId + "&client_secret=" + clientSecret
                    + "&grant_type=client_credentials", [("Content-Type", "application/json")])
  }

  /** One `user_id=` query parameter per channel ID, in input order. */
  function UserIdParams(channelIds: seq<string>): (params: seq<string>)
    ensures |params| == |channelIds|
    ensures forall k :: 0 <= k < |channelIds| ==> params[k] == "user_id=" + channelIds[k]
  {
    if |channelIds| == 0 then []
    else UserIdParams(channelIds[..|channelIds| - 1]) + ["user_id=" + channelIds[|channelIds| - 1]]
  }

  /** The streams query, authorised by the token and the client ID. */
  function StreamsRequest(channelIds: seq<string>, clientId: string, token: string): (r: Request)
  {
    Request("GET", ApiUrl + "/streams?" + Join(UserIdParams(channelIds), '&'),
            [("Authorization", "Bearer " + token), ("Client-Id", clientId)])
  }

  /**
   * The query string of StreamsRequest splits back into exactly one
   * parameter per channel ID, as long as no channel ID contains '&'
   * (the IDs are not escaped).
   */
  lemma {:induction false} QueryHasOneParamPerChannel(channelIds: seq<string>)
    requires |channelIds| > 0
    requires forall k :: 0 <= k < |channelIds| ==> '&' !in channelIds[k]
    ensures Split(Join(UserIdParams(channelIds), '&'), '&') == UserIdParams(channelIds)
  {
    var params := UserIdParams(channelIds);
    forall k | 0 <= k < |params|
      ensures '&' !in params[k]
    {
      assert params[k] == "user_id=" + channelIds[k];
      assert forall c :: c in params[k] ==> c in "user_id=" || c in channelIds[k];
    }
    SplitJoin(params, '&');
  }

  // ---------------------------------------------------------------------
  // Token and thumbnail

  /** `getAppAccessToken` after its request: the decoded token, which must not be empty. */
  function GetAppAccessToken(reply: Result<TokenResponse, FetchError>): (token: Result<string, TwitchError>)
    ensures token.Success? <==> reply.Success? && reply.value.accessToken != ""
    ensures token.Success? ==> token.value == reply.value.accessToken && token.value != ""
    ensures reply.Failure? ==> token == Failure(TokenRequestFailed(reply.error))
    ensures reply.Success? && reply.value.accessToken == "" ==> token == Failure(TokenMissing)
  {
    match reply
    case Failure(cause) => Failure(TokenRequestFailed(cause))
    case Success(response) =>
      if response.accessToken == "" then Failure(TokenMissing) else Success(response.accessToken)
  }

  /** The thumbnail template with its first `{width}` set to 480, then its first `{height}` to 270. */
  function Thumbnail(template: string): (url: string)
  {
    ReplaceFirst(ReplaceFirst(template, "{width}", "480"), "{height}", "270")
  }

  /** A thumbnail URL without placeholders is emitted unchanged. */
  lemma ThumbnailWithoutPlaceholders(url: string)
    requires IndexOf(url, "{width}").None? && IndexOf(url, "{height}").None?
    ensures Thumbnail(url) == url
  {
    ReplaceFirstAbsent(url, "{width}", "480");
    ReplaceFirstAbsent(url, "{height}", "270");
  }

  /**
   * A template `a{width}b{height}c` becomes `a480b270c`, whatever `c` holds
   * (later placeholders included), when `a` holds no `{width}` and `a480b`
   * no `{height}`.
   */
  lemma ThumbnailSubstitutes(a: string, b: string, c: string)
    requires IndexOf(a, "{width}").None?
    requires IndexOf(a + "480" + b, "{height}").None?
    ensures Thumbnail(a + "{width}" + b + "{height}" + c) == a + "480" + b + "270" + c
  {
    var widthDone := a + "480" + (b + "{height}" + c);
    assert ReplaceFirst(a + "{width}" + b + "{height}" + c, "{width}", "480") == widthDone by {
      assert FirstCharUnique("{width}");
      assert a + "{width}" + b + "{height}" + c == a + "{width}" + (b + "{height}" + c);
      ReplaceFirstAfter(a, "{width}", b + "{height}" + c, "480");
    }
    assert ReplaceFirst(widthDone, "{height}", "270") == a + "480" + b + "270" + c by {
      assert FirstCharUnique("{height}");
      assert widthDone == (a + "480" + b) + "{height}" + c;
      ReplaceFirstAfter(a + "480" + b, "{height}", c, "270");
    }
  }

  /** The promise the streams loop keeps: one record per stream, in order, each a live Twitch broadcast. */
  predicate RecordsOf(streams: seq<StreamData>, data: seq<TwitchStream>)
  {
    && |streams| == |data|
    && forall k :: 0 <= k < |data| ==>
         && streams[k].videoId == data[k].id
         && streams[k].thumbnailUrl == Thumbnail(data[k].thumbnailUrl)
         && streams[k].title == data[k].title
         && streams[k].channelName == data[k].userName
         && streams[k].dateTime == data[k].startedAt
         && streams[k].status == StatusLive
         && streams[k].streamUrl == ChannelPrefix + data[k].userName
         && streams[k].platform == PlatformTwitch
  }

  // ---------------------------------------------------------------------
  // The client

  /** The loop building one `user_id=` parameter per channel ID. */
  method BuildQueryParams(channelIds: seq<string>) returns (queryParams: seq<string>)
    ensures queryParams == UserIdParams(channelIds)
  {
    queryParams := [];
    for i := 0 to |channelIds|
      invariant |queryParams| == i
      invariant forall k :: 0 <= k < i ==> queryParams[k] == "user_id=" + channelIds[k]
    {
      queryParams := queryParams + ["user_id=" + channelIds[i]];
    }
  }

  /** The loop turning every stream of the answer into a record. */
  method BuildRecords(data: seq<TwitchStream>) returns (streams: seq<StreamData>)
    ensures RecordsOf(streams, data)
  {
    streams := [];
    for j := 0 to |data|
      invariant RecordsOf(streams, data[..j])
    {
      var s := data[j];
      streams := streams + [StreamData(
        thumbnailUrl := ReplaceFirst(ReplaceFirst(s.thumbnailUrl, "{width}", "480"), "{height}", "270"),
        title := s.title,
        channelName := s.userName,
        dateTime := s.startedAt,
        status := StatusLive,
        streamUrl := ChannelPrefix + s.userName,
        videoId := s.id,
        platform := PlatformTwitch)];
    }
    assert data[..|data|] == data;
  }

  /**
   * `GetTwitchStreams`: channel (user) IDs to live broadcast records.
   * `clientId` and `clientSecret` are the configured credentials,
   * `tokenReply` and `streamsReply` the decoded answers to the two requests,
   * and `requests` lists the requests issued, in order.
   */
  method GetTwitchStreams(channelIds: seq<string>, clientId: string, clientSecret: string,
                          tokenReply: Result<TokenResponse, FetchError>, streamsReply: StreamsReply)
    returns (result: Result<seq<StreamData>, TwitchError>, requests: seq<Request>)
    ensures |channelIds| == 0 ==> result == Success([]) && requests == []
    ensures |channelIds| > 0 && (clientId == "" || clientSecret == "") ==>
              result == Failure(CredentialsMissing) && requests == []
    ensures |channelIds| > 0 && clientId != "" && clientSecret != "" && GetAppAccessToken(tokenReply).Failure? ==>
              result == Failure(GetAppAccessToken(tokenReply).error)
              && requests == [TokenRequest(clientId, clientSecret)]
    ensures |channelIds| > 0 && clientId != "" && clientSecret != "" && GetAppAccessToken(tokenReply).Success? ==>
              var token := GetAppAccessToken(tokenReply).value;
              && requests == (if streamsReply.InvalidRequest? then [TokenRequest(clientId, clientSecret)]
                              else [TokenRequest(clientId, clientSecret), StreamsRequest(channelIds, clientId, token)])
              && (streamsReply.InvalidRequest? ==> result == Failure(RequestBuildFailed))
              && (streamsReply.Unreachable? ==> result == Failure(StreamsCallFailed))
              && (streamsReply.Answer? && streamsReply.statusCode != StatusOk ==>
                    result == Failure(ErrorStatus(streamsReply.statusCode)))
              && (streamsReply.Answer? && streamsReply.statusCode == StatusOk && streamsReply.body.None? ==>
                    result == Failure(StreamsDecodeFailed))
              && (streamsReply.Answer? && streamsReply.statusCode == StatusOk && streamsReply.body.Some? ==>
                    result.Success? && RecordsOf(result.value, streamsReply.body.value.data))
  {
    requests := [];
    if |channelIds| == 0 {
      return Success([]), requests;
    }
    if clientId == "" || clientSecret == "" {
      return Failure(CredentialsMissing), requests;
    }

    requests := requests + [TokenRequest(clientId, clientSecret)];
    var accessToken := GetAppAccessToken(tokenReply);
    if accessToken.Failure? {
      return Failure(accessToken.error), requests;
    }

    var queryParams := BuildQueryParams(channelIds);

    if streamsReply.InvalidRequest? {
      return Failure(RequestBuildFailed), requests;
    }
    requests := requests + [Request("GET", ApiUrl + "/streams?" + Join(queryParams, '&'),
                                    [("Authorization", "Bearer " + accessToken.value), ("Client-Id", clientId)])];
    if streamsReply.Unreachable? {
      return Failure(StreamsCallFailed), requests;
    }
    if streamsReply.statusCode != StatusOk {
      return Failure(ErrorStatus(streamsReply.statusCode)), requests;
    }
    if streamsReply.body.None? {
      return Failure(StreamsDecodeFailed), requests;
    }

    var streams := BuildRecords(streamsReply.body.value.data);
    result := Success(streams);
  }
}
