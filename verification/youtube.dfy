/**
 * The YouTube client: searches the given channels for videos, fetches the
 * details of every video found and keeps those that are broadcasts,
 * normalised to StreamData.
 *
 * The HTTP calls and the JSON decoding are not modelled: each response is
 * an input, already decoded or failed, and the method reports the requests
 * it issues, so that "no request is made" can be stated.
 */
module Youtube {
  import opened Outcomes
  import opened Strings
  import opened Stream

  // ---------------------------------------------------------------------
  // Decoded responses

  /** An RFC 3339 rendering of an instant; never empty. */
  type Rfc3339 = s: string | |s| > 0 witness "Z"

  /**
   * A decoded `time.Time`. ZeroValue is Go's zero struct (the field was
   * absent, null, or the zero instant in UTC). A Decoded value that denotes
   * the zero instant in another offset is zero for `IsZero` yet differs from
   * the zero struct.
   */
  datatype Time = ZeroValue | Decoded(rendered: Rfc3339, zeroInstant: bool)

  /** `time.Time.IsZero`. */
  predicate IsZero(t: Time)
  {
    t.ZeroValue? || t.zeroInstant
  }

  /** `Format(time.RFC3339)`; the zero struct renders as Go renders it. */
  function Format(t: Time): (s: string)
    ensures |s| > 0
    ensures t.Decoded? ==> s == t.rendered
  {
    match t
    case ZeroValue => "0001-01-01T00:00:00Z"
    case Decoded(rendered, _) => rendered
  }

  datatype SearchItem = SearchItem(videoId: string)
  datatype SearchResponse = SearchResponse(items: seq<SearchItem>)

  datatype Thumbnails = Thumbnails(defaultUrl: string, mediumUrl: string, highUrl: string)
  datatype Snippet = Snippet(publishedAt: Time, channelTitle: string, title: string, thumbnails: Thumbnails)
  datatype LiveStreamingDetails = LiveStreamingDetails(actualStartTime: Time, actualEndTime: Time, scheduledStartTime: Time)
  datatype VideoItem = VideoItem(id: string, snippet: Snippet, liveStreamingDetails: LiveStreamingDetails)
  datatype VideosResponse = VideosResponse(items: seq<VideoItem>)

  /** The ways GetYoutubeStreams fails; a failed call keeps its cause, as Go's `%w` wraps it. */
  datatype YoutubeError = ApiKeyMissing | SearchFailed(cause: FetchError) | VideosFailed(cause: FetchError)

  // ---------------------------------------------------------------------
  // Requests

  const SearchEndpoint := "https://www.googleapis.com/youtube/v3/search"
  const VideosEndpoint := "https://www.googleapis.com/youtube/v3/videos"
  const WatchPrefix := "https://www.youtube.com/watch?v="

  /** The search for the latest videos (at most 50) of the comma-joined channels. */
  function SearchRequest(channelIds: seq<string>, apiKey: string): (r: Request)
  {
    Request("GET", SearchEndpoint + "?part=id,snippet&channelId=" + Join(channelIds, ',')
                   + "&type=video&order=date&maxResults=50&key=" + apiKey, [])
  }

  /** The details query for the comma-joined video IDs. */
  function VideosRequest(videoIds: seq<string>, apiKey: string): (r: Request)
  {
    Request("GET", VideosEndpoint + "?part=snippet,liveStreamingDetails&id=" + Join(videoIds, ',')
                   + "&key=" + apiKey, [])
  }

  // ---------------------------------------------------------------------
  // Per-item decisions

  /** The video IDs of the search items, one per item and in the same order. */
  function VideoIds(items: seq<SearchItem>): (ids: seq<string>)
    ensures |ids| == |items|
    ensures forall k :: 0 <= k < |items| ==> ids[k] == items[k].videoId
  {
    if |items| == 0 then []
    else VideoIds(items[..|items| - 1]) + [items[|items| - 1].videoId]
  }

  /**
   * The lifecycle status of a video and the instant it is dated by, in the
   * fixed priority actual end, actual start, scheduled start; None when the
   * video has none of the three and so is no broadcast.
   */
  function Classify(d: LiveStreamingDetails): (r: Option<(string, Time)>)
    ensures r.None? <==> IsZero(d.actualEndTime) && IsZero(d.actualStartTime) && IsZero(d.scheduledStartTime)
    ensures r.Some? ==> r.value.0 in {StatusEnded, StatusLive, StatusUpcoming} && !IsZero(r.value.1)
    ensures (r.Some? && r.value.0 == StatusEnded) <==> !IsZero(d.actualEndTime)
    ensures (r.Some? && r.value.0 == StatusLive) <==> IsZero(d.actualEndTime) && !IsZero(d.actualStartTime)
    ensures (r.Some? && r.value.0 == StatusUpcoming) <==>
              IsZero(d.actualEndTime) && IsZero(d.actualStartTime) && !IsZero(d.scheduledStartTime)
    ensures r.Some? && r.value.0 == StatusEnded ==> r.value.1 == d.actualEndTime
    ensures r.Some? && r.value.0 == StatusLive ==> r.value.1 == d.actualStartTime
    ensures r.Some? && r.value.0 == StatusUpcoming ==> r.value.1 == d.scheduledStartTime
  {
    if !IsZero(d.actualEndTime) then Some((StatusEnded, d.actualEndTime))
    else if !IsZero(d.actualStartTime) then Some((StatusLive, d.actualStartTime))
    else if !IsZero(d.scheduledStartTime) then Some((StatusUpcoming, d.scheduledStartTime))
    else None
  }

  /** The thumbnail: the high-resolution one if set, else the medium, else the default (possibly empty). */
  function PickThumbnail(t: Thumbnails): (url: string)
    ensures url in {t.highUrl, t.mediumUrl, t.defaultUrl}
    ensures url == "" <==> t.highUrl == "" && t.mediumUrl == "" && t.defaultUrl == ""
    ensures t.highUrl != "" ==> url == t.highUrl
    ensures t.highUrl == "" && t.mediumUrl != "" ==> url == t.mediumUrl
    ensures t.highUrl == "" && t.mediumUrl == "" ==> url == t.defaultUrl
  {
    if t.highUrl != "" then t.highUrl
    else if t.mediumUrl != "" then t.mediumUrl
    else t.defaultUrl
  }

  /** The watch page of a video; the video ID can be read back from it. */
  function WatchUrl(videoId: string): (url: string)
    ensures |url| == |WatchPrefix| + |videoId|
    ensures url[..|WatchPrefix|] == WatchPrefix && url[|WatchPrefix|..] == videoId
  {
    WatchPrefix + videoId
  }

  /** The record for one detail item, or None when the item is no broadcast. */
  function Normalise(item: VideoItem): (r: Option<StreamData>)
    ensures r.None? <==> IsNoBroadcast(item)
    ensures r.Some? ==>
      && r.value.videoId == item.id
      && r.value.streamUrl == WatchPrefix + item.id
      && r.value.platform == PlatformYoutube
      && r.value.title == item.snippet.title
      && r.value.channelName == item.snippet.channelTitle
      && r.value.thumbnailUrl == PickThumbnail(item.snippet.thumbnails)
      && r.value.status in {StatusEnded, StatusLive, StatusUpcoming}
      && |r.value.dateTime| > 0
    ensures var d := item.liveStreamingDetails;
      && (!IsZero(d.actualEndTime) ==>
            r.Some? && r.value.status == StatusEnded && r.value.dateTime == Format(d.actualEndTime))
      && (IsZero(d.actualEndTime) && !IsZero(d.actualStartTime) ==>
            r.Some? && r.value.status == StatusLive && r.value.dateTime == Format(d.actualStartTime))
      && (IsZero(d.actualEndTime) && IsZero(d.actualStartTime) && !IsZero(d.scheduledStartTime) ==>
            r.Some? && r.value.status == StatusUpcoming && r.value.dateTime == Format(d.scheduledStartTime))
  {
    match Classify(item.liveStreamingDetails)
    case None => None
    case Some((status, at)) =>
      Some(StreamData(
        thumbnailUrl := PickThumbnail(item.snippet.thumbnails),
        title := item.snippet.title,
        channelName := item.snippet.channelTitle,
        dateTime := Format(at),
        status := status,
        streamUrl := WatchUrl(item.id),
        videoId := item.id,
        platform := PlatformYoutube))
  }

  /** None of the three lifecycle instants is set: the video is no broadcast. */
  predicate IsNoBroadcast(item: VideoItem)
  {
    var d := item.liveStreamingDetails;
    IsZero(d.actualEndTime) && IsZero(d.actualStartTime) && IsZero(d.scheduledStartTime)
  }

  /** The records one item contributes: none or one. */
  function Kept(item: VideoItem): (records: seq<StreamData>)
  {
    match Normalise(item)
    case None => []
    case Some(s) => [s]
  }

  /** The order-preserving filter-map of the detail items to records. */
  function Normalised(items: seq<VideoItem>): (streams: seq<StreamData>)
    ensures |streams| <= |items|
  {
    if |items| == 0 then []
    else Normalised(items[..|items| - 1]) + Kept(items[|items| - 1])
  }

  /** How many of the items are no broadcast. */
  function Dropped(items: seq<VideoItem>): (n: nat)
  {
    if |items| == 0 then 0
    else (if IsNoBroadcast(items[0]) then 1 else 0) + Dropped(items[1..])
  }

  /** Normalising a concatenation normalises each part, keeping their order. */
  lemma {:induction false} NormalisedAppend(a: seq<VideoItem>, b: seq<VideoItem>)
    ensures Normalised(a + b) == Normalised(a) + Normalised(b)
    decreases |b|
  {
    if |b| > 0 {
      var b' := b[..|b| - 1];
      assert (a + b)[..|a + b| - 1] == a + b';
      assert b[..|b| - 1] == b';
      NormalisedAppend(a, b');
    } else {
      assert a + b == a;
    }
  }

  /** A single item yields its own record, or nothing. */
  lemma NormalisedSingle(item: VideoItem)
    ensures Normalised([item]) == Kept(item)
  {
    assert [item][..0] == [];
  }

  /**
   * Order preservation: the records of the items before `x`, then the record
   * of `x` if it is a broadcast, then the records of the items after it.
   */
  lemma NormalisedAround(before: seq<VideoItem>, x: VideoItem, after: seq<VideoItem>)
    ensures Normalised(before + [x] + after) == Normalised(before) + Kept(x) + Normalised(after)
  {
    NormalisedAppend(before + [x], after);
    assert (before + [x])[..|before|] == before;
  }

  /** Every item that is no broadcast removes exactly one record from the output. */
  lemma {:induction false} NormalisedLength(items: seq<VideoItem>)
    ensures |Normalised(items)| + Dropped(items) == |items|
    decreases |items|
  {
    if |items| > 0 {
      var x, rest := items[0], items[1..];
      NormalisedLength(rest);
      assert items == [x] + rest;
      NormalisedAppend([x], rest);
      NormalisedSingle(x);
    }
  }

  /**
   * Every emitted record is a YouTube broadcast with a known status and a
   * timestamp, points to its own watch page, and is the record of some input item.
   */
  lemma {:induction false} NormalisedRecords(items: seq<VideoItem>)
    ensures forall r :: r in Normalised(items) ==>
      && r.status in {StatusEnded, StatusLive, StatusUpcoming}
      && |r.dateTime| > 0
      && r.platform == PlatformYoutube
      && r.streamUrl == WatchUrl(r.videoId)
      && exists i :: 0 <= i < |items| && Normalise(items[i]) == Some(r)
    decreases |items|
  {
    if |items| > 0 {
      var init := items[..|items| - 1];
      NormalisedRecords(init);
      forall r | r in Normalised(items)
        ensures exists i :: 0 <= i < |items| && Normalise(items[i]) == Some(r)
      {
        if r in Normalised(init) {
          var i :| 0 <= i < |init| && Normalise(init[i]) == Some(r);
          assert items[i] == init[i];
        } else {
          assert Normalise(items[|items| - 1]) == Some(r);
        }
      }
    }
  }

  // ---------------------------------------------------------------------
  // The client

  /** The loop collecting the video ID of every search item. */
  method CollectVideoIds(searchItems: seq<SearchItem>) returns (videoIds: seq<string>)
    ensures videoIds == VideoIds(searchItems)
  {
    videoIds := [];
    for i := 0 to |searchItems|
      invariant |videoIds| == i
      invariant forall k :: 0 <= k < i ==> videoIds[k] == searchItems[k].videoId
    {
      videoIds := videoIds + [searchItems[i].videoId];
    }
  }

  /**
   * The loop over the detail items: skips the items that are no broadcast,
   * classifies the others and appends their records.
   */
  method NormaliseItems(items: seq<VideoItem>) returns (streams: seq<StreamData>)
    ensures streams == Normalised(items)
  {
    streams := [];
    for j := 0 to |items|
      invariant streams == Normalised(items[..j])
    {
      assert items[..j + 1][..j] == items[..j];
      var item := items[j];
      var liveDetails := item.liveStreamingDetails;
      if liveDetails == LiveStreamingDetails(ZeroValue, ZeroValue, ZeroValue) {
        continue;
      }

      var status: string;
      var dateTime: Time;
      if !IsZero(liveDetails.actualEndTime) {
        status, dateTime := StatusEnded, liveDetails.actualEndTime;
      } else if !IsZero(liveDetails.actualStartTime) {
        status, dateTime := StatusLive, liveDetails.actualStartTime;
      } else if !IsZero(liveDetails.scheduledStartTime) {
        status, dateTime := StatusUpcoming, liveDetails.scheduledStartTime;
      } else {
        continue;
      }

      var thumbnailUrl := item.snippet.thumbnails.highUrl;
      if thumbnailUrl == "" {
        thumbnailUrl := item.snippet.thumbnails.mediumUrl;
      }
      if thumbnailUrl == "" {
        thumbnailUrl := item.snippet.thumbnails.defaultUrl;
      }

      streams := streams + [StreamData(
        thumbnailUrl := thumbnailUrl,
        title := item.snippet.title,
        channelName := item.snippet.channelTitle,
        dateTime := Format(dateTime),
        status := status,
        streamUrl := WatchPrefix + item.id,
        videoId := item.id,
        platform := PlatformYoutube)];
    }
    assert items[..|items|] == items;
  }

  /**
   * `GetYoutubeStreams`: channel IDs to broadcast records. `apiKey` is the
   * configured key, `search` and `videos` are the decoded answers to the two
   * requests, and `requests` lists the requests issued, in order.
   */
  method GetYoutubeStreams(channelIds: seq<string>, apiKey: string,
                           search: Result<SearchResponse, FetchError>,
                           videos: Result<VideosResponse, FetchError>)
    returns (result: Result<seq<StreamData>, YoutubeError>, requests: seq<Request>)
    ensures |channelIds| == 0 ==> result == Success([]) && requests == []
    ensures |channelIds| > 0 && apiKey == "" ==> result == Failure(ApiKeyMissing) && requests == []
    ensures |channelIds| > 0 && apiKey != "" && search.Failure? ==>
              result == Failure(SearchFailed(search.error)) && requests == [SearchRequest(channelIds, apiKey)]
    ensures |channelIds| > 0 && apiKey != "" && search.Success? && |search.value.items| == 0 ==>
              result == Success([]) && requests == [SearchRequest(channelIds, apiKey)]
    ensures |channelIds| > 0 && apiKey != "" && search.Success? && |search.value.items| > 0 ==>
              && requests == [SearchRequest(channelIds, apiKey), VideosRequest(VideoIds(search.value.items), apiKey)]
              && result == (if videos.Failure? then Failure(VideosFailed(videos.error))
                            else Success(Normalised(videos.value.items)))
  {
    requests := [];
    if |channelIds| == 0 {
      return Success([]), requests;
    }
    if apiKey == "" {
      return Failure(ApiKeyMissing), requests;
    }

    requests := requests + [SearchRequest(channelIds, apiKey)];
    if search.Failure? {
      return Failure(SearchFailed(search.error)), requests;
    }
    var videoIds := CollectVideoIds(search.value.items);
    if |videoIds| == 0 {
      return Success([]), requests;
    }

    requests := requests + [VideosRequest(videoIds, apiKey)];
    if videos.Failure? {
      return Failure(VideosFailed(videos.error)), requests;
    }
    var streams := NormaliseItems(videos.value.items);
    result := Success(streams);
  }
}
