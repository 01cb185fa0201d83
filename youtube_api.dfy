/**
 * The parts of the YouTube Data API the scrapers call, as given responses. Each
 * request kind is a total function from the request to what the API answers, so a
 * repeated request gets the same answer.
 */
module YouTubeApi {
  import opened Wrappers
  import opened Store

  /**
   * A failed call: an `HttpError` with its status, its `reason` and its text as
   * `str(e)` renders it, or any other exception raised while reaching the API.
   */
  datatype ApiFailure =
    | HttpError(status: int, reason: string, text: string)
    | ConnectionError(detail: string)

  datatype ApiOutcome<+T> = Ok(value: T) | Fail(failure: ApiFailure)

  /** One item of a `videos.list` answer (parts snippet, statistics, contentDetails). */
  datatype VideoItem = VideoItem(
    id: string,
    title: string,
    channelId: string,
    publishedAt: Timestamp,
    description: Option<string>,
    tags: Option<seq<string>>,
    duration: Option<string>,
    viewCount: Option<nat>,
    likeCount: Option<nat>,
    commentCount: Option<nat>)

  /** One item of a `channels.list` answer (snippet, statistics, branding, content details). */
  datatype ChannelItem = ChannelItem(
    id: string,
    title: string,
    publishedAt: Option<Timestamp>,
    description: Option<string>,
    profilePicture: string,
    bannerImage: Option<string>,
    subscriberCount: Option<nat>,
    videoCount: Option<nat>,
    viewCount: Option<nat>,
    uploadsPlaylist: string)

  /** How `channels.list` is asked for a channel: by `id` or by `forUsername`. */
  datatype ChannelQuery = ById(channelId: string) | ByUsername(username: string)

  /** One `playlistItems.list` request. */
  datatype PageRequest = PageRequest(playlistId: string, maxResults: int, pageToken: Option<string>)

  /** One `playlistItems.list` answer: the video ids of the page and the token of the next one. */
  datatype PlaylistPage = PlaylistPage(videoIds: seq<string>, nextPageToken: Option<string>)

  /**
   * The API as the scrapers see it. `buildError` is the error `build` raises, if any;
   * the other fields answer `channels.list`, `videos.list` (by a list of ids) and
   * `playlistItems.list`.
   */
  datatype Provider = Provider(
    buildError: Option<string>,
    channels: ChannelQuery -> ApiOutcome<seq<ChannelItem>>,
    videos: seq<string> -> ApiOutcome<seq<VideoItem>>,
    playlistItems: PageRequest -> ApiOutcome<PlaylistPage>)

  /** Python truthiness of an optional string: absent and empty are both false. */
  predicate Given(s: Option<string>) {
    s.Some? && s.value != ""
  }
}
