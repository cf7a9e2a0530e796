/**
 * The unified broadcast record both platform clients emit, and the shapes
 * they share for talking to the outside: the outbound requests they issue
 * and the ways a call or its decoding can fail.
 */
module Stream {

  /** One normalised broadcast, field for field as it is serialised to the front end. */
  datatype StreamData = StreamData(
    thumbnailUrl: string,
    title: string,
    channelName: string,
    dateTime: string,
    status: string,
    streamUrl: string,
    videoId: string,
    platform: string)

  const StatusEnded := "ended"
  const StatusLive := "live"
  const StatusUpcoming := "upcoming"

  const PlatformYoutube := "youtube"
  const PlatformTwitch := "twitch"

  /** An outbound HTTP request: verb, full URL and the headers set on it. */
  datatype Request = Request(verb: string, url: string, headers: seq<(string, string)>)

  /**
   * Why fetching and decoding a response failed: the call itself returned an
   * error, or its body did not decode into the expected structure.
   */
  datatype FetchError = CallFailed | DecodeFailed
}
