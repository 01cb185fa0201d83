/**
 * `scrape_video_by_id` and `scrape_channel_videos`: fetch video metadata, classify each
 * video by its parsed duration, and upsert it into `videos` and `video_stats`.
 *
 * Each operation is a function on the tables (the specification) and a method on the
 * database that takes the steps of `scrape_video_by_id` or `scrape_channel_videos` and is
 * proved to agree with the function.
 */
module VideoScraper {
  import opened Wrappers
  import opened Duration
  import opened Store
  import opened YouTubeApi

  /** The `VideoScraperError`s of a single-video scrape, one per message. */
  datatype VideoError =
    | ApiError(reason: string)           // an HTTP error from the API
    | ConnectionFailed(detail: string)   // any other failure reaching the API
    | VideoNotFound(videoId: string)     // the API returned no item
    | DatabaseError                      // the transaction failed and was rolled back

  /** The summary returned by a successful scrape. */
  datatype VideoSummary = VideoSummary(
    videoId: string,
    title: string,
    channelId: string,
    duration: nat,
    format: FormatType)

  datatype VideoScrape = VideoScrape(result: Result<VideoSummary, VideoError>, tables: VideoTables)

  // ---------------------------------------------------------------------------
  // Reading one item.

  /** The item's duration string, `PT0S` when the item has none. */
  function DurationText(item: VideoItem): string {
    item.duration.GetOr("PT0S")
  }

  function DurationSeconds(item: VideoItem): nat {
    ParseDuration(DurationText(item))
  }

  /** The `videos` row a first scrape of `item` inserts. */
  function VideoRowOf(item: VideoItem, category: string): (row: VideoRow)
    ensures row.formatType == FormatOf(row.duration)
    ensures row.channelId == item.channelId && row.publishedAt == item.publishedAt
  {
    var seconds := DurationSeconds(item);
    VideoRow(item.channelId, item.title, item.publishedAt, category, FormatOf(seconds), seconds)
  }

  /** The `video_stats` row a scrape of `item` writes; missing counts are 0, a missing description empty, missing tags none. */
  function VideoStatsOf(item: VideoItem, now: Timestamp): (st: VideoStatsRow)
    ensures ReadsAs(item.viewCount, st.viewCount, 0) && ReadsAs(item.likeCount, st.likeCount, 0)
    ensures ReadsAs(item.commentCount, st.commentCount, 0)
    ensures ReadsAs(item.description, st.description, "") && ReadsAs(item.tags, st.tags, [])
    ensures st.lastScrapedAt == now
  {
    VideoStatsRow(
      item.viewCount.GetOr(0), item.likeCount.GetOr(0), item.commentCount.GetOr(0),
      item.description.GetOr(""), item.tags.GetOr([]), now)
  }

  /** A single-video lookup found an item. */
  predicate Found(p: Provider, videoId: string) {
    p.buildError.None? && p.videos([videoId]).Ok? && |p.videos([videoId]).value| > 0
  }

  /** The lookup of one video: its first item, or the error the scraper raises. */
  function FetchVideo(p: Provider, videoId: string): (r: Result<VideoItem, VideoError>)
    ensures r.Success? <==> Found(p, videoId)
    ensures r.Success? ==> r.value == p.videos([videoId]).value[0]
    ensures p.buildError.None? && p.videos([videoId]) == Ok([]) ==> r == Failure(VideoNotFound(videoId))
    ensures p.buildError.Some? ==> r == Failure(ConnectionFailed(p.buildError.value))
    ensures p.buildError.None? && p.videos([videoId]).Fail? && p.videos([videoId]).failure.HttpError? ==>
              r == Failure(ApiError(p.videos([videoId]).failure.reason))
    ensures p.buildError.None? && p.videos([videoId]).Fail? && p.videos([videoId]).failure.ConnectionError? ==>
              r == Failure(ConnectionFailed(p.videos([videoId]).failure.detail))
  {
    if p.buildError.Some? then Failure(ConnectionFailed(p.buildError.value))
    else
      match p.videos([videoId])
      case Fail(HttpError(_, reason, _)) => Failure(ApiError(reason))
      case Fail(ConnectionError(detail)) => Failure(ConnectionFailed(detail))
      case Ok(items) => if |items| == 0 then Failure(VideoNotFound(videoId)) else Success(items[0])
  }

  // ---------------------------------------------------------------------------
  // The upsert.

  /**
   * Check-then-insert-or-update on `videos`: a new id gets the whole row; an existing
   * row takes the new title, category, format and duration and keeps its channel and
   * publication time; no other row changes.
   */
  function UpsertVideo(videos: map<string, VideoRow>, id: string, row: VideoRow): (r: map<string, VideoRow>)
    ensures r.Keys == videos.Keys + {id}
    ensures forall k | k in videos && k != id :: r[k] == videos[k]
    ensures id !in videos ==> r[id] == row
    ensures id in videos ==> r[id].channelId == videos[id].channelId && r[id].publishedAt == videos[id].publishedAt
    ensures && r[id].videoTitle == row.videoTitle && r[id].videoCategory == row.videoCategory
            && r[id].formatType == row.formatType && r[id].duration == row.duration
  {
    if id !in videos then videos[id := row]
    else
      var old_row := videos[id];
      videos[id := old_row.(videoTitle := row.videoTitle, videoCategory := row.videoCategory,
                            formatType := row.formatType, duration := row.duration)]
  }

  /**
   * `t1` is `t0` after successful scrapes of the videos `ids` with `category`: exactly
   * those ids were added to both tables, every other row is as it was, each scraped
   * video carries `category` and a format that agrees with its duration, and a row that
   * existed kept its channel and publication time.
   */
  ghost predicate IngestedWith(t0: VideoTables, t1: VideoTables, ids: seq<string>, category: string) {
    Grown(t0, t1, ids) && Untouched(t0, t1, ids) && Labelled(t1, ids, category) && Kept(t0, t1, ids)
  }

  /** Exactly the ids were added to both tables. */
  ghost predicate Grown(t0: VideoTables, t1: VideoTables, ids: seq<string>) {
    && t1.videos.Keys == t0.videos.Keys + (set id | id in ids)
    && t1.stats.Keys == t0.stats.Keys + (set id | id in ids)
  }

  /** Every row of another id is as it was. */
  ghost predicate Untouched(t0: VideoTables, t1: VideoTables, ids: seq<string>) {
    && (forall id | id in t0.videos && id !in ids :: id in t1.videos && t1.videos[id] == t0.videos[id])
    && (forall id | id in t0.stats && id !in ids :: id in t1.stats && t1.stats[id] == t0.stats[id])
  }

  /** Each of the ids is stored with the category and a format that agrees with its duration. */
  ghost predicate Labelled(t1: VideoTables, ids: seq<string>, category: string) {
    forall id | id in ids ::
      id in t1.videos && t1.videos[id].videoCategory == category && t1.videos[id].formatType == FormatOf(t1.videos[id].duration)
  }

  /** A row of the ids that existed kept its channel and publication time. */
  ghost predicate Kept(t0: VideoTables, t1: VideoTables, ids: seq<string>) {
    forall id | id in ids && id in t0.videos ::
      id in t1.videos && t1.videos[id].channelId == t0.videos[id].channelId && t1.videos[id].publishedAt == t0.videos[id].publishedAt
  }

  /** Every stored video's format agrees with its stored duration. */
  ghost predicate FormatConsistent(videos: map<string, VideoRow>) {
    forall id | id in videos :: videos[id].formatType == FormatOf(videos[id].duration)
  }

  /**
   * `scrape_video_by_id` on the tables: fetch the video, then upsert `videos` and
   * `video_stats` in one transaction. Any failure leaves both tables as they were.
   */
  function ScrapeVideo(t: VideoTables, p: Provider, videoId: string, category: string, now: Timestamp,
                       store: StoreOutcome): (s: VideoScrape)
    ensures s.result.Failure? ==> s.tables == t
    ensures s.result.Success? <==> Found(p, videoId) && store == Commits
    ensures Found(p, videoId) && store != Commits ==> s.result == Failure(DatabaseError)
    ensures !Found(p, videoId) ==> s.result == Failure(FetchVideo(p, videoId).error)
    ensures s.result.Success? ==>
      var item := p.videos([videoId]).value[0];
      && IngestedWith(t, s.tables, [videoId], category)
      && (videoId !in t.videos ==> s.tables.videos[videoId] == VideoRowOf(item, category))
      && s.tables.videos[videoId].videoTitle == item.title
      && s.tables.videos[videoId].duration == DurationSeconds(item)
      && s.tables.stats[videoId] == VideoStatsOf(item, now)
      && s.result.value == VideoSummary(videoId, item.title, item.channelId, DurationSeconds(item),
                                        FormatOf(DurationSeconds(item)))
  {
    match FetchVideo(p, videoId)
    case Failure(e) => VideoScrape(Failure(e), t)
    case Success(item) =>
      if store != Commits then VideoScrape(Failure(DatabaseError), t)
      else
        var row := VideoRowOf(item, category);
        var summary := VideoSummary(videoId, item.title, item.channelId, row.duration, row.formatType);
        VideoScrape(Success(summary), Upserted(t, videoId, item, category, now))
  }

  /** The tables after the transaction of a scrape of `item` commits. */
  function Upserted(t: VideoTables, videoId: string, item: VideoItem, category: string, now: Timestamp): VideoTables {
    VideoTables(UpsertVideo(t.videos, videoId, VideoRowOf(item, category)), t.stats[videoId := VideoStatsOf(item, now)])
  }

  /**
   * Scraping the same video twice with the same answers from the API leaves the tables
   * as one scrape at the later time does: one row per id in each table.
   */
  lemma ScrapeVideoIdempotent(t: VideoTables, p: Provider, videoId: string, category: string, now1: Timestamp, now2: Timestamp)
    requires ScrapeVideo(t, p, videoId, category, now1, Commits).result.Success?
    ensures var once := ScrapeVideo(t, p, videoId, category, now2, Commits);
            var first := ScrapeVideo(t, p, videoId, category, now1, Commits);
            var twice := ScrapeVideo(first.tables, p, videoId, category, now2, Commits);
            twice == once
  {
    var item := p.videos([videoId]).value[0];
    var first := Upserted(t, videoId, item, category, now1);
    assert ScrapeVideo(t, p, videoId, category, now1, Commits).tables == first;
    assert ScrapeVideo(first, p, videoId, category, now2, Commits).tables == Upserted(first, videoId, item, category, now2);
    UpsertedTwice(t, videoId, item, category, now1, now2);
  }

  /** A second commit of the same item overrides the first. */
  lemma UpsertedTwice(t: VideoTables, videoId: string, item: VideoItem, category: string, now1: Timestamp, now2: Timestamp)
    ensures Upserted(Upserted(t, videoId, item, category, now1), videoId, item, category, now2)
         == Upserted(t, videoId, item, category, now2)
  {
    var once := Upserted(t, videoId, item, category, now1);
    UpsertTwice(t.videos, videoId, VideoRowOf(item, category));
    OverwriteTwice(t.stats, videoId, VideoStatsOf(item, now1), VideoStatsOf(item, now2));
    assert once.videos == UpsertVideo(t.videos, videoId, VideoRowOf(item, category));
    assert once.stats == t.stats[videoId := VideoStatsOf(item, now1)];
  }

  /** Writing a key twice leaves the second value. */
  lemma OverwriteTwice<K, V>(m: map<K, V>, k: K, first: V, second: V)
    ensures m[k := first][k := second] == m[k := second]
  {
  }

  /** Upserting the same row twice is upserting it once. */
  lemma UpsertTwice(videos: map<string, VideoRow>, id: string, row: VideoRow)
    ensures UpsertVideo(UpsertVideo(videos, id, row), id, row) == UpsertVideo(videos, id, row)
  {
    var once := UpsertVideo(videos, id, row);
    assert UpsertVideo(once, id, row)[id] == once[id];
  }

  /** A scrape keeps every stored format in agreement with its duration. */
  lemma ScrapeVideoKeepsFormats(t: VideoTables, p: Provider, videoId: string, category: string, now: Timestamp, store: StoreOutcome)
    requires FormatConsistent(t.videos)
    ensures FormatConsistent(ScrapeVideo(t, p, videoId, category, now, store).tables.videos)
  {
    var s := ScrapeVideo(t, p, videoId, category, now, store);
    if s.result.Success? {
      forall id | id in s.tables.videos
        ensures s.tables.videos[id].formatType == FormatOf(s.tables.videos[id].duration)
      {
        if id != videoId {
          assert id in t.videos;
        }
      }
    }
  }

  /** The single-video scrape, on the database. */
  method ScrapeVideoById(db: Database, p: Provider, videoId: string, category: string, now: Timestamp, store: StoreOutcome)
      returns (r: Result<VideoSummary, VideoError>)
    modifies db`videos, db`videoStats
    ensures r == ScrapeVideo(old(db.VideoState()), p, videoId, category, now, store).result
    ensures db.VideoState() == ScrapeVideo(old(db.VideoState()), p, videoId, category, now, store).tables
  {
    if p.buildError.Some? {
      return Failure(ConnectionFailed(p.buildError.value));
    }
    var response := p.videos([videoId]);
    if response.Fail? {
      match response.failure
      case HttpError(_, reason, _) => return Failure(ApiError(reason));
      case ConnectionError(detail) => return Failure(ConnectionFailed(detail));
    }
    if |response.value| == 0 {
      return Failure(VideoNotFound(videoId));
    }
    var item := response.value[0];
    var durationSeconds := ParseDuration(DurationText(item));
    var formatType := if durationSeconds <= 60 then Shorts else Video;

    // The transaction: both writes are pending until the commit.
    var videos := db.videos;
    if videoId !in videos {
      videos := videos[videoId := VideoRow(item.channelId, item.title, item.publishedAt, category, formatType, durationSeconds)];
    } else {
      var row := videos[videoId];
      videos := videos[videoId := row.(videoTitle := item.title, videoCategory := category,
                                       formatType := formatType, duration := durationSeconds)];
    }
    var stats := db.videoStats[videoId := VideoStatsOf(item, now)];
    if store != Commits {
      // Rolled back: neither write is kept.
      return Failure(DatabaseError);
    }
    db.videos, db.videoStats := videos, stats;
    return Success(VideoSummary(videoId, item.title, item.channelId, durationSeconds, formatType));
  }

  /** What the scraper raises, as written, when the database fails during a single-video scrape. */
  datatype Raised = ScraperError(error: VideoError) | UnboundLocalError(name: string)

  /**
   * The store failure handling as written: `conn` and `cursor` are first assigned inside
   * the `try`, so when the connection or the cursor cannot be opened, the `except` and
   * `finally` blocks read an unassigned local and raise `UnboundLocalError` instead of
   * the database error.
   */
  function StoreFailureAsWritten(o: StoreOutcome): (r: Raised)
    requires o != Commits
    ensures r.ScraperError? <==> o == StatementFails
  {
    match o
    case OpenFails => UnboundLocalError("cursor")
    case StatementFails => ScraperError(DatabaseError)
  }

  /** An unreachable database is not reported as a database error by the code as written; the model reports it as one. */
  lemma OpenFailureAsWritten(t: VideoTables, p: Provider, videoId: string, category: string, now: Timestamp)
    requires Found(p, videoId)
    ensures StoreFailureAsWritten(OpenFails) != ScraperError(DatabaseError)
    ensures ScrapeVideo(t, p, videoId, category, now, OpenFails).result == Failure(DatabaseError)
  {
  }

  // ---------------------------------------------------------------------------
  // The channel walk.

  /** The causes of "Channel Scrape Failed": every failure inside the walk is re-raised with its text. */
  datatype WalkFailure =
    | ChannelNotFound(channelId: string)
    | ProviderFailed(failure: ApiFailure)
    | IngestFailed(videoId: string, error: VideoError)

  /** `select_video_category` with the walk's fallback: the stored category, or `Other` when there is none. */
  function CategoryFor(channels: map<string, ChannelRow>, channelId: string): (r: string)
    ensures r != ""
    ensures r == "Other" || (channelId in channels && channels[channelId].category == Some(r))
    ensures channelId !in channels || !Given(channels[channelId].category) ==> r == "Other"
    ensures channelId in channels && Given(channels[channelId].category) ==> r == channels[channelId].category.value
  {
    if channelId in channels && Given(channels[channelId].category) then channels[channelId].category.value else "Other"
  }

  /** The walk's filter: `shorts` takes durations up to 60 seconds, `video` longer ones, anything else nothing. */
  function IsMatch(videoType: string, seconds: nat): (b: bool)
    ensures b <==> videoType == FormatName(FormatOf(seconds))
  {
    (videoType == "shorts" && seconds <= 60) || (videoType == "video" && seconds > 60)
  }

  /** The id of `item` when the filter accepts it, and nothing otherwise. */
  function Accepted(videoType: string, item: VideoItem): seq<string> {
    if IsMatch(videoType, DurationSeconds(item)) then [item.id] else []
  }

  /** The ids of the items the filter accepts, in order. */
  function Matching(videoType: string, items: seq<VideoItem>): seq<string> {
    if items == [] then [] else Accepted(videoType, items[0]) + Matching(videoType, items[1..])
  }

  /** The items of all fetched batches, in order. */
  function Flatten(batches: seq<seq<VideoItem>>): seq<VideoItem> {
    if batches == [] then [] else Flatten(batches[..|batches| - 1]) + batches[|batches| - 1]
  }

  /** What stays fixed during one walk. */
  datatype WalkEnv = WalkEnv(
    provider: Provider,
    playlistId: string,
    pageSize: int,
    videoType: string,
    category: string,
    now: Timestamp,
    store: string -> StoreOutcome)

  /** The walk's progress through one batch: the tables, the ids scraped so far, and the failure that stopped it. */
  datatype Progress = Progress(tables: VideoTables, ingested: seq<string>, failure: Option<WalkFailure>)

  /** One item of a batch: classify it and, when it matches, scrape it by id. */
  function IngestItem(env: WalkEnv, item: VideoItem, prog: Progress): Progress
    requires prog.failure.None?
  {
    if !IsMatch(env.videoType, DurationSeconds(item)) then prog
    else
      var s := ScrapeVideo(prog.tables, env.provider, item.id, env.category, env.now, env.store(item.id));
      match s.result
      case Success(_) => Progress(s.tables, prog.ingested + [item.id], None)
      case Failure(e) => prog.(failure := Some(IngestFailed(item.id, e)))
  }

  /** The items of a batch from index `i` on, until one fails. */
  function IngestFrom(env: WalkEnv, items: seq<VideoItem>, i: nat, prog: Progress): Progress
    requires i <= |items|
    decreases |items| - i
  {
    if i == |items| || prog.failure.Some? then prog
    else IngestFrom(env, items, i + 1, IngestItem(env, items[i], prog))
  }

  /** Where a walk ended: its result, the tables, and the ids scraped, pages requested and batches fetched. */
  datatype WalkOutcome = WalkOutcome(
    result: Result<nat, WalkFailure>,
    tables: VideoTables,
    ingested: seq<string>,
    requests: seq<PageRequest>,
    batches: seq<seq<VideoItem>>)

  /** The last element of a non-empty sequence. */
  function Last<T>(s: seq<T>): T
    requires s != []
  {
    s[|s| - 1]
  }

  /** The walk ends on this answer: the page was fetched and had no ids or no next-page token. */
  predicate EndsWalk(p: Provider, request: PageRequest) {
    p.playlistItems(request).Ok?
    && (|p.playlistItems(request).value.videoIds| == 0 || !Given(p.playlistItems(request).value.nextPageToken))
  }

  /**
   * An outcome that, if it succeeded, either made `limit` requests in all or made more
   * than `requests` and ended on an answer that stops the walk.
   */
  predicate StopsFor(p: Provider, requests: seq<PageRequest>, limit: int, w: WalkOutcome) {
    w.result.Success? ==>
      || |w.requests| == limit
      || (|requests| < |w.requests| && EndsWalk(p, Last(w.requests)))
  }

  /**
   * The pagination loop from its `pages`-th page on, with the page token to send. It
   * stops after `maxPages` pages, on a page without ids, on an absent or empty next-page
   * token, or on the first failure; scrapes committed before a failure stay.
   */
  function WalkFrom(env: WalkEnv, maxPages: int, pages: nat, token: Option<string>, tables: VideoTables,
                    ingested: seq<string>, requests: seq<PageRequest>, batches: seq<seq<VideoItem>>): (w: WalkOutcome)
    ensures |w.requests| <= |requests| + Max(0, maxPages - pages)
    ensures w.result.Success? ==> w.result.value == |w.ingested|
    decreases maxPages - pages
  {
    if pages >= maxPages then WalkOutcome(Success(|ingested|), tables, ingested, requests, batches)
    else
      var request := PageRequest(env.playlistId, env.pageSize, token);
      var requests' := requests + [request];
      match env.provider.playlistItems(request)
      case Fail(f) => WalkOutcome(Failure(ProviderFailed(f)), tables, ingested, requests', batches)
      case Ok(page) =>
        if |page.videoIds| == 0 then WalkOutcome(Success(|ingested|), tables, ingested, requests', batches)
        else
          match env.provider.videos(page.videoIds)
          case Fail(f) => WalkOutcome(Failure(ProviderFailed(f)), tables, ingested, requests', batches)
          case Ok(batch) =>
            var batches' := batches + [batch];
            var prog := IngestFrom(env, batch, 0, Progress(tables, ingested, None));
            if prog.failure.Some? then
              WalkOutcome(Failure(prog.failure.value), prog.tables, prog.ingested, requests', batches')
            else if !Given(page.nextPageToken) then
              WalkOutcome(Success(|prog.ingested|), prog.tables, prog.ingested, requests', batches')
            else
              WalkFrom(env, maxPages, pages + 1, page.nextPageToken, prog.tables, prog.ingested, requests', batches')
  }

  /**
   * A successful pagination loop stopped for one of its reasons only: it asked every
   * remaining page, or the last page it asked for was empty or had no next-page token.
   */
  lemma {:induction false} WalkFromStops(env: WalkEnv, maxPages: int, pages: nat, token: Option<string>,
                                         tables: VideoTables, ingested: seq<string>, requests: seq<PageRequest>,
                                         batches: seq<seq<VideoItem>>)
    ensures StopsFor(env.provider, requests, |requests| + Max(0, maxPages - pages),
                     WalkFrom(env, maxPages, pages, token, tables, ingested, requests, batches))
    decreases maxPages - pages
  {
    if pages < maxPages {
      var request := PageRequest(env.playlistId, env.pageSize, token);
      match env.provider.playlistItems(request)
      case Fail(f) =>
      case Ok(page) =>
        if |page.videoIds| > 0 && env.provider.videos(page.videoIds).Ok? {
          var batch := env.provider.videos(page.videoIds).value;
          var prog := IngestFrom(env, batch, 0, Progress(tables, ingested, None));
          if prog.failure.None? && Given(page.nextPageToken) {
            WalkFromStops(env, maxPages, pages + 1, page.nextPageToken, prog.tables, prog.ingested,
                          requests + [request], batches + [batch]);
          }
        }
    }
  }

  /**
   * `scrape_channel_videos` on the tables: resolve the category and the uploads
   * playlist, then walk the playlist with pages of at most 50 items.
   */
  function WalkChannel(t: VideoTables, channels: map<string, ChannelRow>, p: Provider, channelId: string,
                       videoType: string, maxPages: int, maxVideosPerPage: int, now: Timestamp,
                       store: string -> StoreOutcome): (w: WalkOutcome)
    ensures !ChannelResolves(p, channelId) ==>
              w.result.Failure? && w.tables == t && w.ingested == [] && w.requests == [] && w.batches == []
    ensures p.buildError.None? && p.channels(ById(channelId)) == Ok([]) ==> w.result == Failure(ChannelNotFound(channelId))
    ensures |w.requests| <= Max(0, maxPages)
    ensures w.result.Success? ==> w.result.value == |w.ingested|
    ensures StopsFor(p, [], Max(0, maxPages), w)
    ensures ChannelResolves(p, channelId) && FaultFree(p, videoType, store) ==> w.result.Success?
  {
    var category := CategoryFor(channels, channelId);
    if p.buildError.Some? then
      WalkOutcome(Failure(ProviderFailed(ConnectionError(p.buildError.value))), t, [], [], [])
    else
      match p.channels(ById(channelId))
      case Fail(f) => WalkOutcome(Failure(ProviderFailed(f)), t, [], [], [])
      case Ok(items) =>
        if |items| == 0 then WalkOutcome(Failure(ChannelNotFound(channelId)), t, [], [], [])
        else
          var env := WalkEnv(p, items[0].uploadsPlaylist, Min(maxVideosPerPage, 50), videoType, category, now, store);
          WalkFromStops(env, maxPages, 0, None, t, [], [], []);
          WalkFromSucceeds(env, maxPages, 0, None, t, [], [], []);
          WalkFrom(env, maxPages, 0, None, t, [], [], [])
  }

  /** The provider resolves `channelId` to an uploads playlist. */
  predicate ChannelResolves(p: Provider, channelId: string) {
    p.buildError.None? && p.channels(ById(channelId)).Ok? && |p.channels(ById(channelId)).value| > 0
  }

  /** After `maxPages` pages the pagination loop ends successfully. */
  lemma WalkFromDone(env: WalkEnv, maxPages: int, pages: nat, token: Option<string>, tables: VideoTables,
                     ingested: seq<string>, requests: seq<PageRequest>, batches: seq<seq<VideoItem>>)
    requires maxPages <= pages
    ensures WalkFrom(env, maxPages, pages, token, tables, ingested, requests, batches)
            == WalkOutcome(Success(|ingested|), tables, ingested, requests, batches)
  {
  }

  /** A failed page request ends the pagination loop with that failure. */
  lemma WalkFromPageFails(env: WalkEnv, maxPages: int, pages: nat, token: Option<string>, tables: VideoTables,
                          ingested: seq<string>, requests: seq<PageRequest>, batches: seq<seq<VideoItem>>)
    requires pages < maxPages
    requires env.provider.playlistItems(PageRequest(env.playlistId, env.pageSize, token)).Fail?
    ensures WalkFrom(env, maxPages, pages, token, tables, ingested, requests, batches)
            == WalkOutcome(Failure(ProviderFailed(env.provider.playlistItems(PageRequest(env.playlistId, env.pageSize, token)).failure)),
                           tables, ingested, requests + [PageRequest(env.playlistId, env.pageSize, token)], batches)
  {
  }

  /** A page without ids ends the pagination loop successfully. */
  lemma WalkFromEmptyPage(env: WalkEnv, maxPages: int, pages: nat, token: Option<string>, tables: VideoTables,
                          ingested: seq<string>, requests: seq<PageRequest>, batches: seq<seq<VideoItem>>)
    requires pages < maxPages
    requires env.provider.playlistItems(PageRequest(env.playlistId, env.pageSize, token)).Ok?
    requires |env.provider.playlistItems(PageRequest(env.playlistId, env.pageSize, token)).value.videoIds| == 0
    ensures WalkFrom(env, maxPages, pages, token, tables, ingested, requests, batches)
            == WalkOutcome(Success(|ingested|), tables, ingested, requests + [PageRequest(env.playlistId, env.pageSize, token)],
                           batches)
  {
  }

  /** A failed fetch of a page's videos ends the pagination loop with that failure. */
  lemma WalkFromBatchFails(env: WalkEnv, maxPages: int, pages: nat, token: Option<string>, tables: VideoTables,
                           ingested: seq<string>, requests: seq<PageRequest>, batches: seq<seq<VideoItem>>,
                           page: PlaylistPage)
    requires pages < maxPages
    requires env.provider.playlistItems(PageRequest(env.playlistId, env.pageSize, token)) == Ok(page)
    requires |page.videoIds| > 0 && env.provider.videos(page.videoIds).Fail?
    ensures WalkFrom(env, maxPages, pages, token, tables, ingested, requests, batches)
            == WalkOutcome(Failure(ProviderFailed(env.provider.videos(page.videoIds).failure)), tables, ingested,
                           requests + [PageRequest(env.playlistId, env.pageSize, token)], batches)
  {
  }

  /** A page whose batch stops on a failed scrape ends the pagination loop with that failure. */
  lemma WalkFromFailedBatch(env: WalkEnv, maxPages: int, pages: nat, token: Option<string>, tables: VideoTables,
                            ingested: seq<string>, requests: seq<PageRequest>, batches: seq<seq<VideoItem>>,
                            page: PlaylistPage, batch: seq<VideoItem>, prog: Progress)
    requires pages < maxPages
    requires env.provider.playlistItems(PageRequest(env.playlistId, env.pageSize, token)) == Ok(page)
    requires |page.videoIds| > 0 && env.provider.videos(page.videoIds) == Ok(batch)
    requires prog == IngestFrom(env, batch, 0, Progress(tables, ingested, None)) && prog.failure.Some?
    ensures WalkFrom(env, maxPages, pages, token, tables, ingested, requests, batches)
            == WalkOutcome(Failure(prog.failure.value), prog.tables, prog.ingested,
                           requests + [PageRequest(env.playlistId, env.pageSize, token)], batches + [batch])
  {
  }

  /** A page without a next-page token ends the pagination loop once its batch is scraped. */
  lemma WalkFromLastPage(env: WalkEnv, maxPages: int, pages: nat, token: Option<string>, tables: VideoTables,
                         ingested: seq<string>, requests: seq<PageRequest>, batches: seq<seq<VideoItem>>,
                         page: PlaylistPage, batch: seq<VideoItem>, prog: Progress)
    requires pages < maxPages
    requires env.provider.playlistItems(PageRequest(env.playlistId, env.pageSize, token)) == Ok(page)
    requires |page.videoIds| > 0 && env.provider.videos(page.videoIds) == Ok(batch)
    requires prog == IngestFrom(env, batch, 0, Progress(tables, ingested, None)) && prog.failure.None?
    requires !Given(page.nextPageToken)
    ensures WalkFrom(env, maxPages, pages, token, tables, ingested, requests, batches)
            == WalkOutcome(Success(|prog.ingested|), prog.tables, prog.ingested,
                           requests + [PageRequest(env.playlistId, env.pageSize, token)], batches + [batch])
  {
  }

  /** A page with a next-page token hands the pagination loop on to the next page. */
  lemma WalkFromNextPage(env: WalkEnv, maxPages: int, pages: nat, token: Option<string>, tables: VideoTables,
                         ingested: seq<string>, requests: seq<PageRequest>, batches: seq<seq<VideoItem>>,
                         page: PlaylistPage, batch: seq<VideoItem>, prog: Progress)
    requires pages < maxPages
    requires env.provider.playlistItems(PageRequest(env.playlistId, env.pageSize, token)) == Ok(page)
    requires |page.videoIds| > 0 && env.provider.videos(page.videoIds) == Ok(batch)
    requires prog == IngestFrom(env, batch, 0, Progress(tables, ingested, None)) && prog.failure.None?
    requires Given(page.nextPageToken)
    ensures WalkFrom(env, maxPages, pages, token, tables, ingested, requests, batches)
            == WalkFrom(env, maxPages, pages + 1, page.nextPageToken, prog.tables, prog.ingested,
                        requests + [PageRequest(env.playlistId, env.pageSize, token)], batches + [batch])
  {
  }

  /**
   * The inner loop of the walk, on the database: each item of a fetched batch whose
   * duration matches the type is scraped by id, until a scrape fails.
   */
  method IngestBatch(db: Database, p: Provider, videoType: string, category: string, now: Timestamp,
                     store: string -> StoreOutcome, items: seq<VideoItem>, ghost env: WalkEnv, ghost ingested: seq<string>)
      returns (failure: Option<WalkFailure>, scraped: nat, ghost ingested': seq<string>)
    requires env.provider == p && env.videoType == videoType && env.category == category
    requires env.now == now && env.store == store
    modifies db`videos, db`videoStats
    ensures var prog := IngestFrom(env, items, 0, Progress(old(db.VideoState()), ingested, None));
            && db.VideoState() == prog.tables && ingested' == prog.ingested && failure == prog.failure
            && |ingested'| == |ingested| + scraped
  {
    ghost var start := Progress(db.VideoState(), ingested, None);
    ingested' := ingested;
    scraped := 0;
    for i := 0 to |items|
      invariant |ingested'| == |ingested| + scraped
      invariant IngestFrom(env, items, i, Progress(db.VideoState(), ingested', None)) == IngestFrom(env, items, 0, start)
    {
      var item := items[i];
      var durationSeconds := ParseDuration(DurationText(item));
      var isMatch := false;
      if videoType == "shorts" && durationSeconds <= 60 {
        isMatch := true;
      } else if videoType == "video" && durationSeconds > 60 {
        isMatch := true;
      }
      if isMatch {
        var result := ScrapeVideoById(db, p, item.id, category, now, store(item.id));
        if result.Failure? {
          assert IngestFrom(env, items, 0, start)
              == Progress(db.VideoState(), ingested', Some(IngestFailed(item.id, result.error)));
          return Some(IngestFailed(item.id, result.error)), scraped, ingested';
        }
        scraped := scraped + 1;
        ingested' := ingested' + [item.id];
      }
    }
    return None, scraped, ingested';
  }

  /** How one page of the walk ends: the loop goes on with the next-page token, or stops with the walk's result. */
  datatype PageStep = Continue(nextPageToken: Option<string>) | Stop(result: Result<nat, WalkFailure>)

  /**
   * One page of the pagination loop, on the database: request the page, fetch its
   * videos and scrape the matching ones by id. The rest of the walk from here is what
   * `WalkFrom` says, from the next page on when the loop goes on.
   */
  method WalkPage(db: Database, p: Provider, uploadsPlaylistId: string, videoType: string, category: string,
                  maxResults: int, now: Timestamp, store: string -> StoreOutcome, token: Option<string>,
                  totalScraped: nat, ghost env: WalkEnv, ghost maxPages: int, ghost pages: nat, ghost ingested: seq<string>,
                  ghost requests: seq<PageRequest>, ghost batches: seq<seq<VideoItem>>)
      returns (step: PageStep, total: nat, ghost ingested': seq<string>, ghost requests': seq<PageRequest>,
               ghost batches': seq<seq<VideoItem>>)
    requires env == WalkEnv(p, uploadsPlaylistId, maxResults, videoType, category, now, store)
    requires pages < maxPages && totalScraped == |ingested|
    modifies db`videos, db`videoStats
    ensures total == |ingested'|
    ensures step.Continue? ==>
              WalkFrom(env, maxPages, pages, token, old(db.VideoState()), ingested, requests, batches)
              == WalkFrom(env, maxPages, pages + 1, step.nextPageToken, db.VideoState(), ingested', requests', batches')
    ensures step.Stop? ==>
              WalkFrom(env, maxPages, pages, token, old(db.VideoState()), ingested, requests, batches)
              == WalkOutcome(step.result, db.VideoState(), ingested', requests', batches')
  {
    ghost var tables0 := db.VideoState();
    ingested', batches' := ingested, batches;
    total := totalScraped;
    var request := PageRequest(uploadsPlaylistId, maxResults, token);
    requests' := requests + [request];
    var plResponse := p.playlistItems(request);
    if plResponse.Fail? {
      WalkFromPageFails(env, maxPages, pages, token, tables0, ingested, requests, batches);
      return Stop(Failure(ProviderFailed(plResponse.failure))), total, ingested', requests', batches';
    }
    var videoIds := plResponse.value.videoIds;
    if |videoIds| == 0 {
      WalkFromEmptyPage(env, maxPages, pages, token, tables0, ingested, requests, batches);
      return Stop(Success(total)), total, ingested', requests', batches';
    }
    var vResponse := p.videos(videoIds);
    if vResponse.Fail? {
      WalkFromBatchFails(env, maxPages, pages, token, tables0, ingested, requests, batches, plResponse.value);
      return Stop(Failure(ProviderFailed(vResponse.failure))), total, ingested', requests', batches';
    }
    var items := vResponse.value;
    batches' := batches + [items];
    var failure, scraped;
    failure, scraped, ingested' := IngestBatch(db, p, videoType, category, now, store, items, env, ingested);
    total := total + scraped;
    ghost var prog := Progress(db.VideoState(), ingested', failure);
    if failure.Some? {
      WalkFromFailedBatch(env, maxPages, pages, token, tables0, ingested, requests, batches, plResponse.value, items, prog);
      return Stop(Failure(failure.value)), total, ingested', requests', batches';
    }
    var nextPageToken := plResponse.value.nextPageToken;
    if !Given(nextPageToken) {
      WalkFromLastPage(env, maxPages, pages, token, tables0, ingested, requests, batches, plResponse.value, items, prog);
      return Stop(Success(total)), total, ingested', requests', batches';
    }
    WalkFromNextPage(env, maxPages, pages, token, tables0, ingested, requests, batches, plResponse.value, items, prog);
    return Continue(nextPageToken), total, ingested', requests', batches';
  }

  /**
   * The pagination loop of the channel walk, on the database: pages of the uploads
   * playlist are fetched and their matching videos scraped by id, as `WalkFrom` says.
   */
  method WalkUploads(db: Database, p: Provider, uploadsPlaylistId: string, videoType: string, category: string,
                     maxPages: int, maxResults: int, now: Timestamp, store: string -> StoreOutcome)
      returns (r: Result<nat, WalkFailure>, ghost requests: seq<PageRequest>)
    modifies db`videos, db`videoStats
    ensures var w := WalkFrom(WalkEnv(p, uploadsPlaylistId, maxResults, videoType, category, now, store), maxPages, 0,
                              None, old(db.VideoState()), [], [], []);
            r == w.result && db.VideoState() == w.tables && requests == w.requests
  {
    var nextPageToken: Option<string> := None;
    var totalScraped: nat := 0;
    var pagesProcessed: nat := 0;
    requests := [];

    ghost var env := WalkEnv(p, uploadsPlaylistId, maxResults, videoType, category, now, store);
    ghost var ingested: seq<string> := [];
    ghost var batches: seq<seq<VideoItem>> := [];
    ghost var w := WalkFrom(env, maxPages, 0, None, db.VideoState(), [], [], []);

    while pagesProcessed < maxPages
      invariant totalScraped == |ingested|
      invariant WalkFrom(env, maxPages, pagesProcessed, nextPageToken, db.VideoState(), ingested, requests, batches) == w
      decreases maxPages - pagesProcessed
    {
      var step;
      step, totalScraped, ingested, requests, batches :=
        WalkPage(db, p, uploadsPlaylistId, videoType, category, maxResults, now, store, nextPageToken, totalScraped,
                 env, maxPages, pagesProcessed, ingested, requests, batches);
      if step.Stop? {
        return step.result, requests;
      }
      nextPageToken := step.nextPageToken;
      pagesProcessed := pagesProcessed + 1;
    }
    WalkFromDone(env, maxPages, pagesProcessed, nextPageToken, db.VideoState(), ingested, requests, batches);
    return Success(totalScraped), requests;
  }

  /** The channel walk, on the database; it returns the number of videos scraped. */
  method ScrapeChannelVideos(db: Database, p: Provider, channelId: string, videoType: string, maxPages: int,
                             maxVideosPerPage: int, now: Timestamp, store: string -> StoreOutcome)
      returns (r: Result<nat, WalkFailure>, ghost requests: seq<PageRequest>)
    modifies db`videos, db`videoStats
    ensures var w := WalkChannel(old(db.VideoState()), db.channels, p, channelId, videoType, maxPages,
                                 maxVideosPerPage, now, store);
            r == w.result && db.VideoState() == w.tables && requests == w.requests
  {
    var category := CategoryFor(db.channels, channelId);
    requests := [];
    if p.buildError.Some? {
      return Failure(ProviderFailed(ConnectionError(p.buildError.value))), requests;
    }
    var chResponse := p.channels(ById(channelId));
    if chResponse.Fail? {
      return Failure(ProviderFailed(chResponse.failure)), requests;
    }
    if |chResponse.value| == 0 {
      return Failure(ChannelNotFound(channelId)), requests;
    }
    var uploadsPlaylistId := chResponse.value[0].uploadsPlaylist;
    r, requests := WalkUploads(db, p, uploadsPlaylistId, videoType, category, maxPages, Min(maxVideosPerPage, 50), now,
                               store);
  }

  // ---------------------------------------------------------------------------
  // What the walk does, proved about its specification.

  /** Every page request goes to the uploads playlist with the clamped page size. */
  ghost predicate PagedWith(env: WalkEnv, requests: seq<PageRequest>) {
    forall k | 0 <= k < |requests| :: requests[k].playlistId == env.playlistId && requests[k].maxResults == env.pageSize
  }

  /** The answer to `request` is a non-empty page whose next-page token is `token`, which is given. */
  ghost predicate LeadsTo(p: Provider, request: PageRequest, token: Option<string>) {
    && p.playlistItems(request).Ok?
    && |p.playlistItems(request).value.videoIds| > 0
    && Given(p.playlistItems(request).value.nextPageToken)
    && token == p.playlistItems(request).value.nextPageToken
  }

  /**
   * The requests follow the pagination protocol: the first carries no token, and each
   * later one carries the token its predecessor's answer returned, which was non-empty
   * and came with a non-empty page.
   */
  ghost predicate Chained(p: Provider, requests: seq<PageRequest>) {
    && (requests != [] ==> requests[0].pageToken == None)
    && forall k | 0 <= k < |requests| - 1 :: LeadsTo(p, requests[k], requests[k + 1].pageToken)
  }

  /** The answer to `request` is a page with at least one video id. */
  predicate NonEmptyPage(p: Provider, request: PageRequest) {
    p.playlistItems(request).Ok? && |p.playlistItems(request).value.videoIds| > 0
  }

  /** The answer to `request` is a page without video ids. */
  predicate EmptyPage(p: Provider, request: PageRequest) {
    p.playlistItems(request).Ok? && |p.playlistItems(request).value.videoIds| == 0
  }

  /**
   * The batches are what the API answered for the pages: batch `k` is the `videos.list`
   * answer for the ids of the non-empty page that request `k` returned, and there is at
   * most one batch per request.
   */
  ghost predicate Fetched(p: Provider, requests: seq<PageRequest>, batches: seq<seq<VideoItem>>) {
    && |batches| <= |requests|
    && forall k | 0 <= k < |batches| ::
         NonEmptyPage(p, requests[k]) && p.videos(p.playlistItems(requests[k]).value.videoIds) == Ok(batches[k])
  }

  /**
   * A successful walk fetched a batch for every page it asked for, except a last page
   * that had no ids.
   */
  ghost predicate AllFetched(p: Provider, w: WalkOutcome) {
    w.result.Success? ==>
      || |w.batches| == |w.requests|
      || (|w.batches| + 1 == |w.requests| && EmptyPage(p, Last(w.requests)))
  }

  /** Every item of `items` the filter accepts is found by a lookup of its id, and its scrape commits. */
  ghost predicate ScrapesCommit(p: Provider, videoType: string, store: string -> StoreOutcome, items: seq<VideoItem>) {
    forall item | item in items && IsMatch(videoType, DurationSeconds(item)) :: Found(p, item.id) && store(item.id) == Commits
  }

  /**
   * Nothing goes wrong during a walk: the API answers every page request and every
   * `videos.list` request, and every video those answers hold that the filter accepts
   * is found by id and its scrape commits.
   */
  ghost predicate FaultFree(p: Provider, videoType: string, store: string -> StoreOutcome) {
    && (forall request :: p.playlistItems(request).Ok?)
    && (forall ids :: p.videos(ids).Ok? && ScrapesCommit(p, videoType, store, p.videos(ids).value))
  }

  /** The answer to `request`, or the `videos.list` answer for the ids of its page, failed with `f`. */
  predicate PageFailed(p: Provider, request: PageRequest, f: ApiFailure) {
    || p.playlistItems(request) == Fail(f)
    || (NonEmptyPage(p, request) && p.videos(p.playlistItems(request).value.videoIds) == Fail(f))
  }

  /**
   * Why a walk failed. An API failure is the answer to its last page request or to the
   * `videos.list` request for that page, and every matching video fetched before it was
   * scraped and stays stored. A failed scrape is the scrape of a video on the tables the
   * walk left, with that scrape's own error, after every matching video before it was
   * scraped.
   */
  ghost predicate FailedFor(env: WalkEnv, w: WalkOutcome) {
    w.result.Failure? ==>
      match w.result.error
      case ChannelNotFound(_) => false
      case ProviderFailed(f) =>
        && w.requests != [] && PageFailed(env.provider, Last(w.requests), f)
        && w.ingested == Matching(env.videoType, Flatten(w.batches))
      case IngestFailed(id, e) =>
        && ScrapeVideo(w.tables, env.provider, id, env.category, env.now, env.store(id)).result == Failure(e)
        && w.ingested + [id] <= Matching(env.videoType, Flatten(w.batches))
  }

  /**
   * Each of the ids is stored as a lookup of the id answers: the item's title and parsed
   * duration in `videos`, and its counts stamped with `now` in `video_stats`.
   */
  ghost predicate Stored(p: Provider, now: Timestamp, t: VideoTables, ids: seq<string>) {
    forall id | id in ids ::
      && Found(p, id) && id in t.videos && id in t.stats
      && t.videos[id].videoTitle == FetchVideo(p, id).value.title
      && t.videos[id].duration == DurationSeconds(FetchVideo(p, id).value)
      && t.stats[id] == VideoStatsOf(FetchVideo(p, id).value, now)
  }

  /**
   * Each of the ids that was not stored in `t0` has the whole row a first scrape of its
   * lookup's item inserts: its channel, title, publication time, `category`, format and
   * duration.
   */
  ghost predicate Inserted(p: Provider, category: string, t0: VideoTables, t: VideoTables, ids: seq<string>) {
    forall id | id in ids && id !in t0.videos ::
      Found(p, id) && id in t.videos && t.videos[id] == VideoRowOf(FetchVideo(p, id).value, category)
  }

  lemma IngestedWithNothing(t: VideoTables, category: string)
    ensures IngestedWith(t, t, [], category)
  {
    assert (set id: string | id in []) == {};
  }

  lemma IngestedWithTrans(t0: VideoTables, t1: VideoTables, t2: VideoTables, a: seq<string>, b: seq<string>, category: string)
    requires IngestedWith(t0, t1, a, category)
    requires IngestedWith(t1, t2, b, category)
    ensures IngestedWith(t0, t2, a + b, category)
  {
    GrownTrans(t0, t1, t2, a, b);
    UntouchedTrans(t0, t1, t2, a, b);
    LabelledTrans(t0, t1, t2, a, b, category);
    KeptTrans(t0, t1, t2, a, b);
  }

  lemma GrownTrans(t0: VideoTables, t1: VideoTables, t2: VideoTables, a: seq<string>, b: seq<string>)
    requires Grown(t0, t1, a) && Grown(t1, t2, b)
    ensures Grown(t0, t2, a + b)
  {
    assert (set id | id in a + b) == (set id | id in a) + (set id | id in b);
  }

  lemma UntouchedTrans(t0: VideoTables, t1: VideoTables, t2: VideoTables, a: seq<string>, b: seq<string>)
    requires Untouched(t0, t1, a) && Untouched(t1, t2, b)
    ensures Untouched(t0, t2, a + b)
  {
    forall id | id in t0.videos && id !in a + b
      ensures id in t2.videos && t2.videos[id] == t0.videos[id]
    {
      assert id in t1.videos;
    }
    forall id | id in t0.stats && id !in a + b
      ensures id in t2.stats && t2.stats[id] == t0.stats[id]
    {
      assert id in t1.stats;
    }
  }

  lemma LabelledTrans(t0: VideoTables, t1: VideoTables, t2: VideoTables, a: seq<string>, b: seq<string>, category: string)
    requires Labelled(t1, a, category) && Untouched(t1, t2, b) && Labelled(t2, b, category)
    ensures Labelled(t2, a + b, category)
  {
    forall id | id in a + b
      ensures id in t2.videos && t2.videos[id].videoCategory == category
      ensures t2.videos[id].formatType == FormatOf(t2.videos[id].duration)
    {
      if id !in b {
        assert id in a && id in t1.videos;
      }
    }
  }

  lemma KeptTrans(t0: VideoTables, t1: VideoTables, t2: VideoTables, a: seq<string>, b: seq<string>)
    requires Grown(t0, t1, a) && Untouched(t0, t1, a) && Kept(t0, t1, a) && Untouched(t1, t2, b) && Kept(t1, t2, b)
    ensures Kept(t0, t2, a + b)
  {
    forall id | id in a + b && id in t0.videos
      ensures id in t2.videos && t2.videos[id].channelId == t0.videos[id].channelId
      ensures t2.videos[id].publishedAt == t0.videos[id].publishedAt
    {
      assert id in t1.videos;
      if id !in a {
        assert t1.videos[id] == t0.videos[id];
      }
    }
  }

  lemma {:induction false} MatchingAppend(videoType: string, a: seq<VideoItem>, b: seq<VideoItem>)
    ensures Matching(videoType, a + b) == Matching(videoType, a) + Matching(videoType, b)
  {
    if a == [] {
      assert a + b == b;
    } else {
      var head := Accepted(videoType, a[0]);
      assert (a + b)[0] == a[0] && (a + b)[1..] == a[1..] + b;
      MatchingAppend(videoType, a[1..], b);
      AppendAssoc(head, Matching(videoType, a[1..]), Matching(videoType, b));
    }
  }

  /** The filter accepts at most every item, and nothing for a video type other than `shorts` or `video`. */
  lemma {:induction false} MatchingBounds(videoType: string, items: seq<VideoItem>)
    ensures |Matching(videoType, items)| <= |items|
    ensures videoType != "shorts" && videoType != "video" ==> Matching(videoType, items) == []
  {
    if items != [] {
      MatchingBounds(videoType, items[1..]);
    }
  }

  /**
   * Worked filter: of four videos whose durations read as 30, 90, 45 and 120 seconds,
   * `shorts` takes the first and the third and no other.
   */
  lemma FilterExample(a: VideoItem, b: VideoItem, c: VideoItem, d: VideoItem)
    requires DurationSeconds(a) == 30 && DurationSeconds(b) == 90
    requires DurationSeconds(c) == 45 && DurationSeconds(d) == 120
    ensures Matching("shorts", [a, b, c, d]) == [a.id, c.id]
  {
    ShortThenLong(a, b);
    ShortThenLong(c, d);
    MatchingHalves("shorts", a, b, c, d);
  }

  /** A short followed by a longer video: `shorts` takes only the first. */
  lemma ShortThenLong(x: VideoItem, y: VideoItem)
    requires DurationSeconds(x) <= 60 < DurationSeconds(y)
    ensures Matching("shorts", [x, y]) == [x.id]
  {
    MatchingPair("shorts", x, y);
    assert Accepted("shorts", x) == [x.id] && Accepted("shorts", y) == [];
  }

  lemma MatchingHalves(videoType: string, a: VideoItem, b: VideoItem, c: VideoItem, d: VideoItem)
    ensures Matching(videoType, [a, b, c, d]) == Matching(videoType, [a, b]) + Matching(videoType, [c, d])
  {
    assert [a, b, c, d] == [a, b] + [c, d];
    MatchingAppend(videoType, [a, b], [c, d]);
  }

  lemma MatchingPair(videoType: string, x: VideoItem, y: VideoItem)
    ensures Matching(videoType, [x, y]) == Accepted(videoType, x) + Accepted(videoType, y)
  {
    MatchingOne(videoType, x);
    MatchingSnoc(videoType, [x], y);
    assert [x] + [y] == [x, y];
  }

  lemma MatchingSnoc(videoType: string, items: seq<VideoItem>, x: VideoItem)
    ensures Matching(videoType, items + [x]) == Matching(videoType, items) + Accepted(videoType, x)
  {
    MatchingOne(videoType, x);
    MatchingAppend(videoType, items, [x]);
  }

  lemma MatchingOne(videoType: string, x: VideoItem)
    ensures Matching(videoType, [x]) == Accepted(videoType, x)
  {
    assert [x][1..] == [];
  }

  lemma FlattenAppend(batches: seq<seq<VideoItem>>, batch: seq<VideoItem>)
    ensures Flatten(batches + [batch]) == Flatten(batches) + batch
  {
    assert (batches + [batch])[..|batches|] == batches;
  }

  /** One item: the tables grow by the item when it matches and its scrape commits, and by nothing otherwise. */
  lemma IngestItemSpec(env: WalkEnv, item: VideoItem, prog: Progress, t0: VideoTables)
    requires prog.failure.None?
    requires IngestedWith(t0, prog.tables, prog.ingested, env.category)
    ensures var next := IngestItem(env, item, prog);
            && IngestedWith(t0, next.tables, next.ingested, env.category)
            && next.ingested <= prog.ingested + Matching(env.videoType, [item])
            && (next.failure.None? ==> next.ingested == prog.ingested + Matching(env.videoType, [item]))
  {
    assert Matching(env.videoType, [item]) == Accepted(env.videoType, item) by {
      assert [item][1..] == [];
    }
    var next := IngestItem(env, item, prog);
    if IsMatch(env.videoType, DurationSeconds(item)) {
      var s := ScrapeVideo(prog.tables, env.provider, item.id, env.category, env.now, env.store(item.id));
      if s.result.Success? {
        IngestedWithTrans(t0, prog.tables, s.tables, prog.ingested, [item.id], env.category);
      }
    }
  }

  /**
   * The rest of a batch: every id scraped is one the filter accepts, in order; when no
   * scrape fails, exactly the accepted ids are scraped.
   */
  lemma {:induction false} IngestFromSpec(env: WalkEnv, items: seq<VideoItem>, i: nat, prog: Progress,
                                          t0: VideoTables, before: seq<string>)
    requires i <= |items| && prog.failure.None?
    requires IngestedWith(t0, prog.tables, prog.ingested, env.category)
    requires prog.ingested == before + Matching(env.videoType, items[..i])
    ensures var r := IngestFrom(env, items, i, prog);
            && IngestedWith(t0, r.tables, r.ingested, env.category)
            && r.ingested <= before + Matching(env.videoType, items)
            && (r.failure.None? ==> r.ingested == before + Matching(env.videoType, items))
    decreases |items| - i
  {
    if i == |items| {
      assert items[..i] == items;
    } else {
      var next := IngestItem(env, items[i], prog);
      assert IngestFrom(env, items, i, prog) == IngestFrom(env, items, i + 1, next);
      IngestItemSpec(env, items[i], prog, t0);
      MatchingStep(env.videoType, items, i);
      AppendAssoc(before, Matching(env.videoType, items[..i]), Matching(env.videoType, [items[i]]));
      if next.failure.None? {
        IngestFromSpec(env, items, i + 1, next, t0, before);
      } else {
        assert IngestFrom(env, items, i + 1, next) == next;
        PrefixAppend(next.ingested, before, Matching(env.videoType, items[..i + 1]), Matching(env.videoType, items));
      }
    }
  }

  lemma MatchingStep(videoType: string, items: seq<VideoItem>, i: nat)
    requires i < |items|
    ensures Matching(videoType, items[..i]) + Matching(videoType, [items[i]]) == Matching(videoType, items[..i + 1])
    ensures Matching(videoType, items[..i + 1]) <= Matching(videoType, items)
  {
    assert items[..i + 1] == items[..i] + [items[i]];
    MatchingAppend(videoType, items[..i], [items[i]]);
    MatchingPrefix(videoType, items, i + 1);
  }

  lemma MatchingPrefix(videoType: string, items: seq<VideoItem>, n: nat)
    requires n <= |items|
    ensures Matching(videoType, items[..n]) <= Matching(videoType, items)
  {
    assert items == items[..n] + items[n..];
    MatchingAppend(videoType, items[..n], items[n..]);
  }

  lemma AppendAssoc<T>(a: seq<T>, b: seq<T>, c: seq<T>)
    ensures (a + b) + c == a + (b + c)
  {
  }

  lemma PrefixAppend<T>(a: seq<T>, before: seq<T>, b: seq<T>, c: seq<T>)
    requires a <= before + b && b <= c
    ensures a <= before + c
  {
    assert before + b <= before + c;
  }

  /** One fetched batch: what the walk has scraped stays a prefix of the matching items of all batches so far. */
  lemma IngestBatchSpec(env: WalkEnv, batches: seq<seq<VideoItem>>, batch: seq<VideoItem>, tables: VideoTables,
                        ingested: seq<string>, t0: VideoTables)
    requires IngestedWith(t0, tables, ingested, env.category)
    requires ingested == Matching(env.videoType, Flatten(batches))
    ensures var prog := IngestFrom(env, batch, 0, Progress(tables, ingested, None));
            && IngestedWith(t0, prog.tables, prog.ingested, env.category)
            && prog.ingested <= Matching(env.videoType, Flatten(batches + [batch]))
            && (prog.failure.None? ==> prog.ingested == Matching(env.videoType, Flatten(batches + [batch])))
  {
    assert batch[..0] == [];
    IngestFromSpec(env, batch, 0, Progress(tables, ingested, None), t0, ingested);
    FlattenAppend(batches, batch);
    MatchingAppend(env.videoType, Flatten(batches), batch);
  }

  /**
   * The pagination loop from any point asks at most `maxPages - pages` more pages, all
   * of the uploads playlist with the clamped size.
   */
  lemma {:induction false} WalkFromRequests(env: WalkEnv, maxPages: int, pages: nat, token: Option<string>,
                                            tables: VideoTables, ingested: seq<string>, requests: seq<PageRequest>,
                                            batches: seq<seq<VideoItem>>)
    requires PagedWith(env, requests)
    ensures var w := WalkFrom(env, maxPages, pages, token, tables, ingested, requests, batches);
            PagedWith(env, w.requests) && requests <= w.requests
    decreases maxPages - pages
  {
    if pages < maxPages {
      var request := PageRequest(env.playlistId, env.pageSize, token);
      var requests' := requests + [request];
      assert PagedWith(env, requests');
      match env.provider.playlistItems(request)
      case Fail(f) =>
      case Ok(page) =>
        if |page.videoIds| > 0 && env.provider.videos(page.videoIds).Ok? {
          var batch := env.provider.videos(page.videoIds).value;
          var prog := IngestFrom(env, batch, 0, Progress(tables, ingested, None));
          if prog.failure.None? && Given(page.nextPageToken) {
            WalkFromRequests(env, maxPages, pages + 1, page.nextPageToken, prog.tables, prog.ingested, requests',
                             batches + [batch]);
          }
        }
    }
  }

  /**
   * What the pagination loop scrapes from any point: the accepted items of the batches
   * it fetches, in order, stopping at the first failure; on success all of them, and
   * it returns their number.
   */
  lemma {:induction false} WalkFromSpec(env: WalkEnv, maxPages: int, pages: nat, token: Option<string>,
                                        tables: VideoTables, ingested: seq<string>, requests: seq<PageRequest>,
                                        batches: seq<seq<VideoItem>>, t0: VideoTables)
    requires IngestedWith(t0, tables, ingested, env.category)
    requires ingested == Matching(env.videoType, Flatten(batches))
    ensures var w := WalkFrom(env, maxPages, pages, token, tables, ingested, requests, batches);
            && IngestedWith(t0, w.tables, w.ingested, env.category)
            && w.ingested <= Matching(env.videoType, Flatten(w.batches))
            && (w.result.Success? ==> w.ingested == Matching(env.videoType, Flatten(w.batches)) && w.result.value == |w.ingested|)
    decreases maxPages - pages
  {
    if pages < maxPages {
      var request := PageRequest(env.playlistId, env.pageSize, token);
      match env.provider.playlistItems(request)
      case Fail(f) =>
      case Ok(page) =>
        if |page.videoIds| > 0 && env.provider.videos(page.videoIds).Ok? {
          var batch := env.provider.videos(page.videoIds).value;
          IngestBatchSpec(env, batches, batch, tables, ingested, t0);
          var prog := IngestFrom(env, batch, 0, Progress(tables, ingested, None));
          if prog.failure.None? && Given(page.nextPageToken) {
            WalkFromSpec(env, maxPages, pages + 1, page.nextPageToken, prog.tables, prog.ingested,
                         requests + [request], batches + [batch], t0);
          }
        }
    }
  }

  /**
   * The batches the pagination loop records from any point are the API's answers for
   * the ids of the pages it asked for, one per non-empty page, and a successful loop
   * has a batch for every page but a last empty one.
   */
  lemma {:induction false} WalkFromFetched(env: WalkEnv, maxPages: int, pages: nat, token: Option<string>,
                                           tables: VideoTables, ingested: seq<string>, requests: seq<PageRequest>,
                                           batches: seq<seq<VideoItem>>)
    requires Fetched(env.provider, requests, batches) && |batches| == |requests|
    ensures var w := WalkFrom(env, maxPages, pages, token, tables, ingested, requests, batches);
            Fetched(env.provider, w.requests, w.batches) && AllFetched(env.provider, w)
    decreases maxPages - pages
  {
    if pages < maxPages {
      var request := PageRequest(env.playlistId, env.pageSize, token);
      var requests' := requests + [request];
      assert Fetched(env.provider, requests', batches);
      match env.provider.playlistItems(request)
      case Fail(f) =>
      case Ok(page) =>
        if |page.videoIds| == 0 {
          assert Last(requests') == request;
        } else if env.provider.videos(page.videoIds).Ok? {
          var batch := env.provider.videos(page.videoIds).value;
          var batches' := batches + [batch];
          assert Fetched(env.provider, requests', batches') by {
            forall k | 0 <= k < |batches'|
              ensures NonEmptyPage(env.provider, requests'[k])
              ensures env.provider.videos(env.provider.playlistItems(requests'[k]).value.videoIds) == Ok(batches'[k])
            {
              if k < |batches| {
                assert requests'[k] == requests[k] && batches'[k] == batches[k];
              }
            }
          }
          var prog := IngestFrom(env, batch, 0, Progress(tables, ingested, None));
          if prog.failure.None? && Given(page.nextPageToken) {
            WalkFromFetched(env, maxPages, pages + 1, page.nextPageToken, prog.tables, prog.ingested, requests',
                            batches');
          }
        }
    }
  }

  /** The pagination loop keeps to the protocol: each request after the first carries the token of the answer before it. */
  lemma {:induction false} WalkFromChained(env: WalkEnv, maxPages: int, pages: nat, token: Option<string>,
                                           tables: VideoTables, ingested: seq<string>, requests: seq<PageRequest>,
                                           batches: seq<seq<VideoItem>>)
    requires Chained(env.provider, requests)
    requires requests == [] ==> token == None
    requires requests != [] ==> LeadsTo(env.provider, requests[|requests| - 1], token)
    ensures Chained(env.provider, WalkFrom(env, maxPages, pages, token, tables, ingested, requests, batches).requests)
    decreases maxPages - pages
  {
    if pages < maxPages {
      var request := PageRequest(env.playlistId, env.pageSize, token);
      var requests' := requests + [request];
      assert Chained(env.provider, requests') by {
        forall k | 0 <= k < |requests'| - 1
          ensures LeadsTo(env.provider, requests'[k], requests'[k + 1].pageToken)
        {
          if k < |requests| - 1 {
            assert requests'[k] == requests[k] && requests'[k + 1] == requests[k + 1];
          }
        }
      }
      match env.provider.playlistItems(request)
      case Fail(f) =>
      case Ok(page) =>
        if |page.videoIds| > 0 && env.provider.videos(page.videoIds).Ok? {
          var batch := env.provider.videos(page.videoIds).value;
          var prog := IngestFrom(env, batch, 0, Progress(tables, ingested, None));
          if prog.failure.None? && Given(page.nextPageToken) {
            WalkFromChained(env, maxPages, pages + 1, page.nextPageToken, prog.tables, prog.ingested, requests',
                            batches + [batch]);
          }
        }
    }
  }

  /** The rest of a batch whose accepted items are all found and commit is scraped without a failure. */
  lemma {:induction false} IngestFromSucceeds(env: WalkEnv, items: seq<VideoItem>, i: nat, prog: Progress)
    requires i <= |items| && prog.failure.None?
    requires ScrapesCommit(env.provider, env.videoType, env.store, items)
    ensures IngestFrom(env, items, i, prog).failure.None?
    decreases |items| - i
  {
    if i < |items| {
      var next := IngestItem(env, items[i], prog);
      assert items[i] in items;
      assert next.failure.None?;
      IngestFromSucceeds(env, items, i + 1, next);
    }
  }

  /** A pagination loop over an API that never fails, whose accepted videos all commit, succeeds. */
  lemma {:induction false} WalkFromSucceeds(env: WalkEnv, maxPages: int, pages: nat, token: Option<string>,
                                            tables: VideoTables, ingested: seq<string>, requests: seq<PageRequest>,
                                            batches: seq<seq<VideoItem>>)
    ensures FaultFree(env.provider, env.videoType, env.store) ==>
              WalkFrom(env, maxPages, pages, token, tables, ingested, requests, batches).result.Success?
    decreases maxPages - pages
  {
    if pages < maxPages && FaultFree(env.provider, env.videoType, env.store) {
      var request := PageRequest(env.playlistId, env.pageSize, token);
      var page := env.provider.playlistItems(request).value;
      if |page.videoIds| > 0 {
        var batch := env.provider.videos(page.videoIds).value;
        IngestFromSucceeds(env, batch, 0, Progress(tables, ingested, None));
        var prog := IngestFrom(env, batch, 0, Progress(tables, ingested, None));
        if Given(page.nextPageToken) {
          WalkFromSucceeds(env, maxPages, pages + 1, page.nextPageToken, prog.tables, prog.ingested,
                           requests + [request], batches + [batch]);
        }
      }
    }
  }

  /**
   * The rest of a batch, without reference to the tables: with no failure every accepted
   * id is scraped; a failure is the failed scrape of an accepted item, on the tables as
   * they then are, after every accepted item before it was scraped.
   */
  lemma {:induction false} IngestFromOutcome(env: WalkEnv, items: seq<VideoItem>, i: nat, prog: Progress,
                                             before: seq<string>)
    requires i <= |items| && prog.failure.None?
    requires prog.ingested == before + Matching(env.videoType, items[..i])
    ensures var r := IngestFrom(env, items, i, prog);
            && (r.failure.None? ==> r.ingested == before + Matching(env.videoType, items))
            && (r.failure.Some? ==>
                  && r.failure.value.IngestFailed?
                  && ScrapeVideo(r.tables, env.provider, r.failure.value.videoId, env.category, env.now,
                                 env.store(r.failure.value.videoId)).result == Failure(r.failure.value.error)
                  && r.ingested + [r.failure.value.videoId] <= before + Matching(env.videoType, items))
    decreases |items| - i
  {
    if i == |items| {
      assert items[..i] == items;
    } else {
      var item := items[i];
      var next := IngestItem(env, item, prog);
      assert IngestFrom(env, items, i, prog) == IngestFrom(env, items, i + 1, next);
      IngestItemOutcome(env, item, prog);
      MatchingStep(env.videoType, items, i);
      MatchingOne(env.videoType, item);
      AppendAssoc(before, Matching(env.videoType, items[..i]), Accepted(env.videoType, item));
      if next.failure.None? {
        IngestFromOutcome(env, items, i + 1, next, before);
      } else {
        assert IngestFrom(env, items, i + 1, next) == next;
        PrefixAppend(next.ingested + [item.id], before, Matching(env.videoType, items[..i + 1]),
                     Matching(env.videoType, items));
      }
    }
  }

  /** One item: it adds its id when accepted and scraped, and a failure is its own failed scrape. */
  lemma IngestItemOutcome(env: WalkEnv, item: VideoItem, prog: Progress)
    requires prog.failure.None?
    ensures var next := IngestItem(env, item, prog);
            && (next.failure.None? ==> next.ingested == prog.ingested + Accepted(env.videoType, item))
            && (next.failure.Some? ==>
                  && next.ingested + [item.id] == prog.ingested + Accepted(env.videoType, item)
                  && next.failure.value.IngestFailed? && next.failure.value.videoId == item.id
                  && ScrapeVideo(next.tables, env.provider, item.id, env.category, env.now, env.store(item.id)).result
                     == Failure(next.failure.value.error))
  {
  }

  /**
   * Why the pagination loop fails, from any point: on the answer to its last request or
   * to that page's videos, having scraped every matching video fetched; or on the scrape
   * of a matching video, having scraped every matching video before it.
   */
  lemma {:induction false} WalkFromFails(env: WalkEnv, maxPages: int, pages: nat, token: Option<string>,
                                         tables: VideoTables, ingested: seq<string>, requests: seq<PageRequest>,
                                         batches: seq<seq<VideoItem>>)
    requires ingested == Matching(env.videoType, Flatten(batches))
    ensures FailedFor(env, WalkFrom(env, maxPages, pages, token, tables, ingested, requests, batches))
    decreases maxPages - pages
  {
    if pages < maxPages {
      var request := PageRequest(env.playlistId, env.pageSize, token);
      var requests' := requests + [request];
      assert Last(requests') == request;
      match env.provider.playlistItems(request)
      case Fail(f) =>
      case Ok(page) =>
        if |page.videoIds| > 0 && env.provider.videos(page.videoIds).Ok? {
          var batch := env.provider.videos(page.videoIds).value;
          assert batch[..0] == [];
          IngestFromOutcome(env, batch, 0, Progress(tables, ingested, None), ingested);
          FlattenAppend(batches, batch);
          MatchingAppend(env.videoType, Flatten(batches), batch);
          var prog := IngestFrom(env, batch, 0, Progress(tables, ingested, None));
          if prog.failure.None? && Given(page.nextPageToken) {
            WalkFromFails(env, maxPages, pages + 1, page.nextPageToken, prog.tables, prog.ingested, requests',
                          batches + [batch]);
          }
        }
    }
  }

  /** One item keeps every scraped id stored as its lookup answers. */
  lemma IngestItemStored(env: WalkEnv, item: VideoItem, prog: Progress)
    requires prog.failure.None? && Stored(env.provider, env.now, prog.tables, prog.ingested)
    ensures var next := IngestItem(env, item, prog);
            Stored(env.provider, env.now, next.tables, next.ingested)
  {
    var next := IngestItem(env, item, prog);
    if IsMatch(env.videoType, DurationSeconds(item)) {
      var s := ScrapeVideo(prog.tables, env.provider, item.id, env.category, env.now, env.store(item.id));
      if s.result.Success? {
        forall id | id in next.ingested && id != item.id
          ensures id in s.tables.videos && s.tables.videos[id] == prog.tables.videos[id]
          ensures id in s.tables.stats && s.tables.stats[id] == prog.tables.stats[id]
        {
          assert id in prog.ingested && id !in [item.id];
        }
      }
    }
  }

  /** One item keeps every new id it or an earlier item scraped with the row its first scrape inserts. */
  lemma IngestItemInserted(env: WalkEnv, item: VideoItem, prog: Progress, t0: VideoTables)
    requires prog.failure.None?
    requires IngestedWith(t0, prog.tables, prog.ingested, env.category)
    requires Inserted(env.provider, env.category, t0, prog.tables, prog.ingested)
    ensures var next := IngestItem(env, item, prog);
            Inserted(env.provider, env.category, t0, next.tables, next.ingested)
  {
    var next := IngestItem(env, item, prog);
    if IsMatch(env.videoType, DurationSeconds(item)) {
      var s := ScrapeVideo(prog.tables, env.provider, item.id, env.category, env.now, env.store(item.id));
      if s.result.Success? {
        forall id | id in next.ingested && id !in t0.videos && id != item.id
          ensures id in s.tables.videos && s.tables.videos[id] == prog.tables.videos[id]
        {
          assert id in prog.ingested && id !in [item.id];
        }
        if item.id !in t0.videos {
          if item.id in prog.tables.videos {
            assert item.id in prog.ingested;
          }
          ScrapeLeavesFirstRow(prog.tables, env.provider, item.id, env.category, env.now);
        }
      }
    }
  }

  /**
   * A committed scrape leaves the row a first scrape of the lookup's item inserts, when
   * the id is new or its row already is that one.
   */
  lemma ScrapeLeavesFirstRow(t: VideoTables, p: Provider, videoId: string, category: string, now: Timestamp)
    requires Found(p, videoId)
    requires videoId in t.videos ==> t.videos[videoId] == VideoRowOf(FetchVideo(p, videoId).value, category)
    ensures ScrapeVideo(t, p, videoId, category, now, Commits).tables.videos[videoId]
            == VideoRowOf(FetchVideo(p, videoId).value, category)
  {
  }

  /** The rest of a batch keeps every scraped id stored as its lookup answers. */
  lemma {:induction false} IngestFromStored(env: WalkEnv, items: seq<VideoItem>, i: nat, prog: Progress, t0: VideoTables)
    requires i <= |items| && prog.failure.None? && Stored(env.provider, env.now, prog.tables, prog.ingested)
    requires IngestedWith(t0, prog.tables, prog.ingested, env.category)
    requires Inserted(env.provider, env.category, t0, prog.tables, prog.ingested)
    ensures var r := IngestFrom(env, items, i, prog);
            && Stored(env.provider, env.now, r.tables, r.ingested)
            && Inserted(env.provider, env.category, t0, r.tables, r.ingested)
    decreases |items| - i
  {
    if i < |items| {
      var next := IngestItem(env, items[i], prog);
      IngestItemStored(env, items[i], prog);
      IngestItemInserted(env, items[i], prog, t0);
      IngestItemSpec(env, items[i], prog, t0);
      if next.failure.None? {
        IngestFromStored(env, items, i + 1, next, t0);
      } else {
        assert IngestFrom(env, items, i + 1, next) == next;
      }
    }
  }

  /** The pagination loop, from any point, keeps every scraped id stored as its lookup answers. */
  lemma {:induction false} WalkFromStored(env: WalkEnv, maxPages: int, pages: nat, token: Option<string>,
                                          tables: VideoTables, ingested: seq<string>, requests: seq<PageRequest>,
                                          batches: seq<seq<VideoItem>>, t0: VideoTables)
    requires Stored(env.provider, env.now, tables, ingested)
    requires IngestedWith(t0, tables, ingested, env.category) && Inserted(env.provider, env.category, t0, tables, ingested)
    ensures var w := WalkFrom(env, maxPages, pages, token, tables, ingested, requests, batches);
            && Stored(env.provider, env.now, w.tables, w.ingested)
            && Inserted(env.provider, env.category, t0, w.tables, w.ingested)
    decreases maxPages - pages
  {
    if pages < maxPages {
      var request := PageRequest(env.playlistId, env.pageSize, token);
      match env.provider.playlistItems(request)
      case Fail(f) =>
      case Ok(page) =>
        if |page.videoIds| > 0 && env.provider.videos(page.videoIds).Ok? {
          var batch := env.provider.videos(page.videoIds).value;
          IngestFromStored(env, batch, 0, Progress(tables, ingested, None), t0);
          assert batch[..0] == [] && ingested + [] == ingested;
          IngestFromSpec(env, batch, 0, Progress(tables, ingested, None), t0, ingested);
          var prog := IngestFrom(env, batch, 0, Progress(tables, ingested, None));
          if prog.failure.None? && Given(page.nextPageToken) {
            WalkFromStored(env, maxPages, pages + 1, page.nextPageToken, prog.tables, prog.ingested,
                           requests + [request], batches + [batch], t0);
          }
        }
    }
  }

  /**
   * Paging of a channel walk: at most `maxPages` playlist pages are requested (none when
   * `maxPages <= 0`), each of `min(maxVideosPerPage, 50)` items from the channel's
   * uploads playlist, and the walk asks for no page after an empty one or one without a
   * next-page token.
   */
  lemma WalkPaging(t: VideoTables, channels: map<string, ChannelRow>, p: Provider, channelId: string, videoType: string,
                   maxPages: int, maxVideosPerPage: int, now: Timestamp, store: string -> StoreOutcome)
    ensures var w := WalkChannel(t, channels, p, channelId, videoType, maxPages, maxVideosPerPage, now, store);
            && |w.requests| <= Max(0, maxPages)
            && (forall k | 0 <= k < |w.requests| :: w.requests[k].maxResults == Min(maxVideosPerPage, 50))
            && (w.requests != [] ==>
                  && ChannelResolves(p, channelId)
                  && forall k | 0 <= k < |w.requests| ::
                       w.requests[k].playlistId == p.channels(ById(channelId)).value[0].uploadsPlaylist)
            && Chained(p, w.requests)
  {
    if ChannelResolves(p, channelId) {
      var env := WalkEnv(p, p.channels(ById(channelId)).value[0].uploadsPlaylist, Min(maxVideosPerPage, 50),
                         videoType, CategoryFor(channels, channelId), now, store);
      WalkFromRequests(env, maxPages, 0, None, t, [], [], []);
      WalkFromChained(env, maxPages, 0, None, t, [], [], []);
    }
  }

  /**
   * Counting of a channel walk: the returned count is the number of fetched items whose
   * parsed duration matches the requested type, never more than the items fetched, and 0
   * for a type other than `shorts` or `video`. Whether it succeeds or fails, the videos
   * it scraped are, in order, a prefix of the matching ones.
   */
  lemma WalkCount(t: VideoTables, channels: map<string, ChannelRow>, p: Provider, channelId: string, videoType: string,
                  maxPages: int, maxVideosPerPage: int, now: Timestamp, store: string -> StoreOutcome)
    ensures var w := WalkChannel(t, channels, p, channelId, videoType, maxPages, maxVideosPerPage, now, store);
            && Fetched(p, w.requests, w.batches)
            && AllFetched(p, w)
            && w.ingested <= Matching(videoType, Flatten(w.batches))
            && (w.result.Success? ==>
                  && w.result.value == |Matching(videoType, Flatten(w.batches))|
                  && w.result.value <= |Flatten(w.batches)|)
            && (videoType != "shorts" && videoType != "video" ==> w.ingested == [])
            && (w.result.Failure? && w.result.error.ProviderFailed? ==> w.ingested == Matching(videoType, Flatten(w.batches)))
            && (w.result.Failure? && w.result.error.IngestFailed? ==>
                  w.ingested + [w.result.error.videoId] <= Matching(videoType, Flatten(w.batches)))
  {
    var w := WalkChannel(t, channels, p, channelId, videoType, maxPages, maxVideosPerPage, now, store);
    if ChannelResolves(p, channelId) {
      var env := WalkEnv(p, p.channels(ById(channelId)).value[0].uploadsPlaylist, Min(maxVideosPerPage, 50),
                         videoType, CategoryFor(channels, channelId), now, store);
      IngestedWithNothing(t, env.category);
      WalkFromSpec(env, maxPages, 0, None, t, [], [], [], t);
      WalkFromFetched(env, maxPages, 0, None, t, [], [], []);
      WalkFromFails(env, maxPages, 0, None, t, [], [], []);
    }
    MatchingBounds(videoType, Flatten(w.batches));
  }

  /**
   * What a channel walk leaves in the store, whether it succeeds or fails part-way:
   * exactly the videos it scraped were upserted, each with the channel's stored category
   * or `Other`, every other row is unchanged, and a video that was already stored kept
   * its channel and publication time. Each scraped video holds what a lookup of its id
   * answers, and a new one the whole row a single scrape of it inserts.
   */
  lemma WalkStore(t: VideoTables, channels: map<string, ChannelRow>, p: Provider, channelId: string, videoType: string,
                  maxPages: int, maxVideosPerPage: int, now: Timestamp, store: string -> StoreOutcome)
    ensures var w := WalkChannel(t, channels, p, channelId, videoType, maxPages, maxVideosPerPage, now, store);
            && IngestedWith(t, w.tables, w.ingested, CategoryFor(channels, channelId))
            && Stored(p, now, w.tables, w.ingested)
            && Inserted(p, CategoryFor(channels, channelId), t, w.tables, w.ingested)
  {
    IngestedWithNothing(t, CategoryFor(channels, channelId));
    if ChannelResolves(p, channelId) {
      var env := WalkEnv(p, p.channels(ById(channelId)).value[0].uploadsPlaylist, Min(maxVideosPerPage, 50),
                         videoType, CategoryFor(channels, channelId), now, store);
      WalkFromSpec(env, maxPages, 0, None, t, [], [], [], t);
      WalkFromStored(env, maxPages, 0, None, t, [], [], [], t);
    }
  }

  /** A walk keeps every stored format in agreement with its duration. */
  lemma WalkKeepsFormats(t: VideoTables, channels: map<string, ChannelRow>, p: Provider, channelId: string,
                         videoType: string, maxPages: int, maxVideosPerPage: int, now: Timestamp,
                         store: string -> StoreOutcome)
    requires FormatConsistent(t.videos)
    ensures FormatConsistent(WalkChannel(t, channels, p, channelId, videoType, maxPages, maxVideosPerPage, now, store).tables.videos)
  {
    var w := WalkChannel(t, channels, p, channelId, videoType, maxPages, maxVideosPerPage, now, store);
    WalkStore(t, channels, p, channelId, videoType, maxPages, maxVideosPerPage, now, store);
    forall id | id in w.tables.videos
      ensures w.tables.videos[id].formatType == FormatOf(w.tables.videos[id].duration)
    {
      if id !in w.ingested {
        assert id in t.videos;
      }
    }
  }

  /** With `maxPages <= 0` a walk over a known channel requests no page, scrapes nothing and returns 0. */
  lemma WalkNoPages(t: VideoTables, channels: map<string, ChannelRow>, p: Provider, channelId: string, videoType: string,
                    maxPages: int, maxVideosPerPage: int, now: Timestamp, store: string -> StoreOutcome)
    requires maxPages <= 0 && ChannelResolves(p, channelId)
    ensures var w := WalkChannel(t, channels, p, channelId, videoType, maxPages, maxVideosPerPage, now, store);
            w.result == Success(0) && w.tables == t && w.requests == []
  {
  }

  /**
   * Why a channel walk fails: the client could not be built, the channel lookup failed
   * or came back empty (and nothing was requested or written), the answer to the last
   * page request or to that page's videos failed, or the scrape of a matching video
   * failed with its own error.
   */
  lemma WalkFailureCause(t: VideoTables, channels: map<string, ChannelRow>, p: Provider, channelId: string,
                         videoType: string, maxPages: int, maxVideosPerPage: int, now: Timestamp,
                         store: string -> StoreOutcome)
    ensures var w := WalkChannel(t, channels, p, channelId, videoType, maxPages, maxVideosPerPage, now, store);
            w.result.Failure? ==>
              match w.result.error
              case ChannelNotFound(c) =>
                c == channelId && p.buildError.None? && p.channels(ById(channelId)) == Ok([]) && w.tables == t
              case ProviderFailed(f) =>
                || (p.buildError.Some? && f == ConnectionError(p.buildError.value) && w.tables == t)
                || (p.buildError.None? && p.channels(ById(channelId)) == Fail(f) && w.tables == t)
                || (ChannelResolves(p, channelId) && w.requests != [] && PageFailed(p, Last(w.requests), f))
              case IngestFailed(id, e) =>
                && ChannelResolves(p, channelId)
                && ScrapeVideo(w.tables, p, id, CategoryFor(channels, channelId), now, store(id)).result == Failure(e)
  {
    if ChannelResolves(p, channelId) {
      var env := WalkEnv(p, p.channels(ById(channelId)).value[0].uploadsPlaylist, Min(maxVideosPerPage, 50),
                         videoType, CategoryFor(channels, channelId), now, store);
      WalkFromFails(env, maxPages, 0, None, t, [], [], []);
    }
  }

  /**
   * Worked walk: a `shorts` walk over a single page, without a next-page token, whose
   * videos read as 30, 90, 45 and 120 seconds scrapes the first and the third and
   * returns 2, whatever category the channel has stored.
   */
  lemma WalkExample(t: VideoTables, channels: map<string, ChannelRow>, p: Provider, channelId: string,
                    maxPages: int, maxVideosPerPage: int, now: Timestamp, store: string -> StoreOutcome,
                    ids: seq<string>, a: VideoItem, b: VideoItem, c: VideoItem, d: VideoItem)
    requires ChannelResolves(p, channelId) && maxPages >= 1
    requires p.playlistItems(PageRequest(p.channels(ById(channelId)).value[0].uploadsPlaylist, Min(maxVideosPerPage, 50), None))
             == Ok(PlaylistPage(ids, None))
    requires |ids| > 0 && p.videos(ids) == Ok([a, b, c, d])
    requires DurationSeconds(a) == 30 && DurationSeconds(b) == 90
    requires DurationSeconds(c) == 45 && DurationSeconds(d) == 120
    requires Found(p, a.id) && store(a.id) == Commits && Found(p, c.id) && store(c.id) == Commits
    ensures var w := WalkChannel(t, channels, p, channelId, "shorts", maxPages, maxVideosPerPage, now, store);
            w.result == Success(2) && w.ingested == [a.id, c.id]
  {
    var env := WalkEnv(p, p.channels(ById(channelId)).value[0].uploadsPlaylist, Min(maxVideosPerPage, 50),
                       "shorts", CategoryFor(channels, channelId), now, store);
    var prog := IngestFrom(env, [a, b, c, d], 0, Progress(t, [], None));
    ExampleBatch(env, t, a, b, c, d);
    WalkFromLastPage(env, maxPages, 0, None, t, [], [], [], PlaylistPage(ids, None), [a, b, c, d], prog);
  }

  /** The batch of the worked walk is scraped without a failure, and its first and third videos are scraped. */
  lemma ExampleBatch(env: WalkEnv, t: VideoTables, a: VideoItem, b: VideoItem, c: VideoItem, d: VideoItem)
    requires env.videoType == "shorts"
    requires DurationSeconds(a) == 30 && DurationSeconds(b) == 90
    requires DurationSeconds(c) == 45 && DurationSeconds(d) == 120
    requires Found(env.provider, a.id) && env.store(a.id) == Commits
    requires Found(env.provider, c.id) && env.store(c.id) == Commits
    ensures var prog := IngestFrom(env, [a, b, c, d], 0, Progress(t, [], None));
            prog.failure.None? && prog.ingested == [a.id, c.id]
  {
    assert !IsMatch("shorts", DurationSeconds(b)) && !IsMatch("shorts", DurationSeconds(d));
    ExampleCommits(env, a, b, c, d);
    IngestFromAll(env, [a, b, c, d], t);
    FilterExample(a, b, c, d);
  }

  lemma ExampleCommits(env: WalkEnv, a: VideoItem, b: VideoItem, c: VideoItem, d: VideoItem)
    requires !IsMatch(env.videoType, DurationSeconds(b)) && !IsMatch(env.videoType, DurationSeconds(d))
    requires Found(env.provider, a.id) && env.store(a.id) == Commits
    requires Found(env.provider, c.id) && env.store(c.id) == Commits
    ensures ScrapesCommit(env.provider, env.videoType, env.store, [a, b, c, d])
  {
  }

  /** A batch whose accepted items all commit is scraped in full: exactly its accepted ids, in order. */
  lemma IngestFromAll(env: WalkEnv, items: seq<VideoItem>, t: VideoTables)
    requires ScrapesCommit(env.provider, env.videoType, env.store, items)
    ensures var prog := IngestFrom(env, items, 0, Progress(t, [], None));
            prog.failure.None? && prog.ingested == Matching(env.videoType, items)
  {
    IngestFromSucceeds(env, items, 0, Progress(t, [], None));
    assert items[..0] == [];
    IngestFromOutcome(env, items, 0, Progress(t, [], None), []);
  }
}
