/**
 * The four tables the scrapers write, as maps from the provider's ids to rows.
 * Timestamps are kept as the text the provider or the database clock supplies.
 */
module Store {
  import opened Wrappers
  import opened Duration

  type Timestamp = string

  /** A row of `channels`: written once, when the channel is first scraped; the category may be NULL. */
  datatype ChannelRow = ChannelRow(
    channelName: string,
    publishedAt: Option<Timestamp>,
    category: Option<string>)

  /** A row of `channel_stats`: overwritten on every scrape. */
  datatype ChannelStatsRow = ChannelStatsRow(
    subscribersCount: nat,
    totalVideoCount: nat,
    totalViewCount: nat,
    description: Option<string>,
    profilePicture: string,
    bannerImage: Option<string>,
    lastScrapedAt: Timestamp)

  /** A row of `videos`. */
  datatype VideoRow = VideoRow(
    channelId: string,
    videoTitle: string,
    publishedAt: Timestamp,
    videoCategory: string,
    formatType: FormatType,
    duration: nat)

  /** A row of `video_stats`: overwritten on every scrape. */
  datatype VideoStatsRow = VideoStatsRow(
    viewCount: nat,
    likeCount: nat,
    commentCount: nat,
    description: string,
    tags: seq<string>,
    lastScrapedAt: Timestamp)

  /**
   * What the database does with one scrape's transaction: it commits, it cannot be
   * reached (the connection or cursor is never opened), or a statement or the commit
   * fails once the transaction is open.
   */
  datatype StoreOutcome = Commits | OpenFails | StatementFails

  /** The two video tables together, as one transaction sees them. */
  datatype VideoTables = VideoTables(
    videos: map<string, VideoRow>,
    stats: map<string, VideoStatsRow>)

  /** The two channel tables together, as one transaction sees them. */
  datatype ChannelTables = ChannelTables(
    channels: map<string, ChannelRow>,
    stats: map<string, ChannelStatsRow>)

  /** The database the scrapers write: each table a map from id to row. */
  class Database {
    var channels: map<string, ChannelRow>
    var channelStats: map<string, ChannelStatsRow>
    var videos: map<string, VideoRow>
    var videoStats: map<string, VideoStatsRow>

    constructor ()
      ensures channels == map[] && channelStats == map[]
      ensures videos == map[] && videoStats == map[]
    {
      channels := map[];
      channelStats := map[];
      videos := map[];
      videoStats := map[];
    }

    function VideoState(): VideoTables
      reads this
    {
      VideoTables(videos, videoStats)
    }

    function ChannelState(): ChannelTables
      reads this
    {
      ChannelTables(channels, channelStats)
    }
  }
}
