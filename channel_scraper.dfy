/**
 * `scrape_channel` and `delete_channel`: look a channel up by id or by username, insert
 * its `channels` row if it is not stored yet, and always overwrite its `channel_stats`
 * row; or remove both rows.
 */
module ChannelScraper {
  import opened Wrappers
  import opened Store
  import opened YouTubeApi

  /** Why `scrape_channel` stops; one case per message or exception it raises. */
  datatype ChannelError =
    | MissingIdentifier        // the `ValueError`: neither a channel id nor a username
    | ApiInitFailed            // building the client raised
    | QuotaExceeded            // HTTP 403 whose text names `quotaExceeded`
    | AccessForbidden          // any other HTTP 403
    | InvalidIdentifier        // HTTP 400
    | ApiError(text: string)   // any other HTTP status, with the error's text
    | Unhandled(detail: string) // a non-HTTP failure of the request, raised unwrapped
    | ChannelNotFound          // the API returned no item
    | StoreUnreachable         // opening the connection or cursor raised, before the `try`
    | DatabaseError            // a statement or the commit failed; rolled back

  /** The summary returned by a successful scrape. */
  datatype ChannelSummary = ChannelSummary(
    channelId: string,
    channelName: string,
    subscribers: nat,
    videos: nat,
    views: nat)

  datatype ChannelOutcome = ChannelOutcome(result: Result<ChannelSummary, ChannelError>, tables: ChannelTables)

  /** How the channel is asked for: by id when one is given, else by username; neither is an error. */
  function ResolveQuery(channelId: Option<string>, username: Option<string>): (r: Result<ChannelQuery, ChannelError>)
    ensures r.Failure? <==> !Given(channelId) && !Given(username)
    ensures r.Failure? ==> r.error == MissingIdentifier
    ensures r.Success? && r.value.ById? ==> Given(channelId) && r.value.channelId == channelId.value
    ensures r.Success? && r.value.ByUsername? ==> !Given(channelId) && r.value.username == username.value
  {
    if Given(channelId) then Success(ById(channelId.value))
    else if Given(username) then Success(ByUsername(username.value))
    else Failure(MissingIdentifier)
  }

  /** `sub` occurs somewhere in `text`: it begins `text` or occurs in the rest. */
  predicate Contains(text: string, sub: string): (b: bool)
    ensures b ==> |sub| <= |text|
    ensures sub <= text ==> b
  {
    sub <= text || (text != [] && Contains(text[1..], sub))
  }

  /** An occurrence of `sub` at index `i` of `text` makes `Contains` hold. */
  lemma {:induction false} ContainsAt(text: string, sub: string, i: nat)
    requires i + |sub| <= |text| && text[i..i + |sub|] == sub
    ensures Contains(text, sub)
  {
    if i > 0 {
      assert text[1..][i - 1..i - 1 + |sub|] == text[i..i + |sub|];
      ContainsAt(text[1..], sub, i - 1);
    }
  }

  /** Where `sub` first occurs in `text`, when `Contains` holds. */
  function FirstOccurrence(text: string, sub: string): (i: nat)
    requires Contains(text, sub)
    ensures i + |sub| <= |text| && text[i..i + |sub|] == sub
    ensures forall j | 0 <= j < i :: !(sub <= text[j..])
  {
    if sub <= text then 0
    else
      var k := FirstOccurrence(text[1..], sub);
      assert text[1..][k..k + |sub|] == text[k + 1..k + 1 + |sub|];
      assert forall j | 1 <= j < k + 1 :: text[1..][j - 1..] == text[j..];
      k + 1
  }

  /** The message an HTTP error of the channel lookup is turned into. */
  function HttpErrorToChannelError(status: int, text: string): (e: ChannelError)
    ensures e == QuotaExceeded <==> status == 403 && Contains(text, "quotaExceeded")
    ensures e == AccessForbidden <==> status == 403 && !Contains(text, "quotaExceeded")
    ensures e == InvalidIdentifier <==> status == 400
    ensures e.ApiError? <==> status != 403 && status != 400
    ensures e.ApiError? ==> e.text == text
  {
    if status == 403 then
      if Contains(text, "quotaExceeded") then QuotaExceeded else AccessForbidden
    else if status == 400 then InvalidIdentifier
    else ApiError(text)
  }

  /** The lookup found an item for the query. */
  predicate Resolves(p: Provider, query: ChannelQuery) {
    p.buildError.None? && p.channels(query).Ok? && |p.channels(query).value| > 0
  }

  /** The channel lookup: its first item, or the error the scraper raises. */
  function FetchChannel(p: Provider, query: ChannelQuery): (r: Result<ChannelItem, ChannelError>)
    ensures r.Success? <==> Resolves(p, query)
    ensures r.Success? ==> r.value == p.channels(query).value[0]
    ensures p.buildError.Some? ==> r == Failure(ApiInitFailed)
    ensures p.buildError.None? && p.channels(query) == Ok([]) ==> r == Failure(ChannelNotFound)
    ensures p.buildError.None? && p.channels(query).Fail? && p.channels(query).failure.HttpError? ==>
              var f := p.channels(query).failure;
              r == Failure(HttpErrorToChannelError(f.status, f.text))
    ensures p.buildError.None? && p.channels(query).Fail? && p.channels(query).failure.ConnectionError? ==>
              r == Failure(Unhandled(p.channels(query).failure.detail))
  {
    if p.buildError.Some? then Failure(ApiInitFailed)
    else
      match p.channels(query)
      case Fail(HttpError(status, _, text)) => Failure(HttpErrorToChannelError(status, text))
      case Fail(ConnectionError(detail)) => Failure(Unhandled(detail))
      case Ok(items) => if |items| == 0 then Failure(ChannelNotFound) else Success(items[0])
  }

  /** The `channels` row a first scrape of `item` inserts. */
  function ChannelRowOf(item: ChannelItem, category: Option<string>): (row: ChannelRow)
    ensures row.channelName == item.title && row.publishedAt == item.publishedAt && row.category == category
  {
    ChannelRow(item.title, item.publishedAt, category)
  }

  /** The `channel_stats` row every scrape of `item` writes; missing counts are 0. */
  function ChannelStatsOf(item: ChannelItem, now: Timestamp): (st: ChannelStatsRow)
    ensures ReadsAs(item.subscriberCount, st.subscribersCount, 0) && ReadsAs(item.videoCount, st.totalVideoCount, 0)
    ensures ReadsAs(item.viewCount, st.totalViewCount, 0)
    ensures st.description == item.description && st.profilePicture == item.profilePicture
    ensures st.bannerImage == item.bannerImage && st.lastScrapedAt == now
  {
    ChannelStatsRow(
      item.subscriberCount.GetOr(0), item.videoCount.GetOr(0), item.viewCount.GetOr(0),
      item.description, item.profilePicture, item.bannerImage, now)
  }

  /** The channel a scrape with these arguments is about, when the arguments and the lookup succeed. */
  predicate Scrapes(p: Provider, channelId: Option<string>, username: Option<string>) {
    ResolveQuery(channelId, username).Success? && Resolves(p, ResolveQuery(channelId, username).value)
  }

  /** The item the lookup returns for these arguments. */
  function ItemFor(p: Provider, channelId: Option<string>, username: Option<string>): ChannelItem
    requires Scrapes(p, channelId, username)
  {
    p.channels(ResolveQuery(channelId, username).value).value[0]
  }

  /**
   * `scrape_channel` on the tables. The rows are keyed by the id the API returns, not
   * by the argument; the `channels` row is inserted only when that id is not stored,
   * the `channel_stats` row is always written; a failure writes nothing.
   */
  function ChannelScrape(t: ChannelTables, p: Provider, channelId: Option<string>, username: Option<string>,
                         category: Option<string>, now: Timestamp, store: StoreOutcome): (s: ChannelOutcome)
    ensures s.result.Failure? ==> s.tables == t
    ensures !Given(channelId) && !Given(username) ==> s.result == Failure(MissingIdentifier)
    ensures s.result.Success? <==> Scrapes(p, channelId, username) && store == Commits
    ensures ResolveQuery(channelId, username).Success? && FetchChannel(p, ResolveQuery(channelId, username).value).Failure? ==>
              s.result == Failure(FetchChannel(p, ResolveQuery(channelId, username).value).error)
    ensures Scrapes(p, channelId, username) && store == OpenFails ==> s.result == Failure(StoreUnreachable)
    ensures Scrapes(p, channelId, username) && store == StatementFails ==> s.result == Failure(DatabaseError)
    ensures s.result.Success? ==>
      var item := ItemFor(p, channelId, username);
      && s.tables.channels.Keys == t.channels.Keys + {item.id}
      && s.tables.stats.Keys == t.stats.Keys + {item.id}
      && (forall id | id in t.channels && id != item.id :: s.tables.channels[id] == t.channels[id])
      && (forall id | id in t.stats && id != item.id :: s.tables.stats[id] == t.stats[id])
      && (item.id in t.channels ==> s.tables.channels[item.id] == t.channels[item.id])
      && (item.id !in t.channels ==> s.tables.channels[item.id] == ChannelRowOf(item, category))
      && s.tables.stats[item.id] == ChannelStatsOf(item, now)
      && s.result.value == ChannelSummary(item.id, item.title, item.subscriberCount.GetOr(0),
                                          item.videoCount.GetOr(0), item.viewCount.GetOr(0))
  {
    match ResolveQuery(channelId, username)
    case Failure(e) => ChannelOutcome(Failure(e), t)
    case Success(query) =>
      match FetchChannel(p, query)
      case Failure(e) => ChannelOutcome(Failure(e), t)
      case Success(item) =>
        match store
        case OpenFails => ChannelOutcome(Failure(StoreUnreachable), t)
        case StatementFails => ChannelOutcome(Failure(DatabaseError), t)
        case Commits =>
          var stats := ChannelStatsOf(item, now);
          var channels := if item.id in t.channels then t.channels else t.channels[item.id := ChannelRowOf(item, category)];
          var summary := ChannelSummary(item.id, item.title, stats.subscribersCount, stats.totalVideoCount, stats.totalViewCount);
          ChannelOutcome(Success(summary), ChannelTables(channels, t.stats[item.id := stats]))
  }

  /** `delete_channel` on the tables: both rows of the channel go, nothing else changes. */
  function DeleteFrom(t: ChannelTables, channelId: string): (r: ChannelTables)
    ensures channelId !in r.channels && channelId !in r.stats
    ensures r.channels.Keys == t.channels.Keys - {channelId} && r.stats.Keys == t.stats.Keys - {channelId}
    ensures forall id | id in r.channels :: r.channels[id] == t.channels[id]
    ensures forall id | id in r.stats :: r.stats[id] == t.stats[id]
  {
    ChannelTables(t.channels - {channelId}, t.stats - {channelId})
  }

  /**
   * Scraping a channel again with the same answers from the API leaves the tables as
   * one scrape at the later time does, whatever category the second scrape is given.
   */
  lemma ChannelScrapeIdempotent(t: ChannelTables, p: Provider, channelId: Option<string>, username: Option<string>,
                                category1: Option<string>, category2: Option<string>, now1: Timestamp, now2: Timestamp)
    ensures var once := ChannelScrape(t, p, channelId, username, category1, now1, Commits);
            var twice := ChannelScrape(once.tables, p, channelId, username, category2, now2, Commits);
            twice.result == once.result && twice.tables == ChannelScrape(t, p, channelId, username, category1, now2, Commits).tables
  {
    var once := ChannelScrape(t, p, channelId, username, category1, now1, Commits);
    var twice := ChannelScrape(once.tables, p, channelId, username, category2, now2, Commits);
    var later := ChannelScrape(t, p, channelId, username, category1, now2, Commits);
    if once.result.Success? {
      assert twice.tables.channels == later.tables.channels;
      assert twice.tables.stats == later.tables.stats;
    }
  }

  /**
   * A channel's row is written by its first scrape only: a later scrape leaves its name,
   * publication time and category as the first one stored them.
   */
  lemma FirstScrapeKeepsChannelRow(t: ChannelTables, p1: Provider, p2: Provider, channelId: Option<string>,
                                   username: Option<string>, category1: Option<string>, category2: Option<string>,
                                   now1: Timestamp, now2: Timestamp)
    requires Scrapes(p1, channelId, username) && Scrapes(p2, channelId, username)
    requires ItemFor(p1, channelId, username).id == ItemFor(p2, channelId, username).id
    requires ItemFor(p1, channelId, username).id !in t.channels
    ensures var first := ChannelScrape(t, p1, channelId, username, category1, now1, Commits);
            var second := ChannelScrape(first.tables, p2, channelId, username, category2, now2, Commits);
            var id := ItemFor(p1, channelId, username).id;
            && second.tables.channels[id] == ChannelRowOf(ItemFor(p1, channelId, username), category1)
            && second.tables.stats[id] == ChannelStatsOf(ItemFor(p2, channelId, username), now2)
  {
  }

  /** Deleting a channel that a scrape added to tables without it gives the tables back as they were. */
  lemma DeleteUndoesFirstScrape(t: ChannelTables, p: Provider, channelId: Option<string>, username: Option<string>,
                                category: Option<string>, now: Timestamp)
    requires Scrapes(p, channelId, username)
    requires ItemFor(p, channelId, username).id !in t.channels && ItemFor(p, channelId, username).id !in t.stats
    ensures var s := ChannelScrape(t, p, channelId, username, category, now, Commits);
            DeleteFrom(s.tables, ItemFor(p, channelId, username).id) == t
  {
    var s := ChannelScrape(t, p, channelId, username, category, now, Commits);
    var id := ItemFor(p, channelId, username).id;
    assert DeleteFrom(s.tables, id).channels == t.channels;
    assert DeleteFrom(s.tables, id).stats == t.stats;
  }

  /** After a channel is deleted, the next scrape inserts its row afresh, with the new category. */
  lemma ScrapeAfterDeleteInsertsAfresh(t: ChannelTables, p: Provider, channelId: Option<string>, username: Option<string>,
                                       category: Option<string>, now: Timestamp)
    requires Scrapes(p, channelId, username)
    ensures var item := ItemFor(p, channelId, username);
            var s := ChannelScrape(DeleteFrom(t, item.id), p, channelId, username, category, now, Commits);
            s.tables.channels[item.id] == ChannelRowOf(item, category)
  {
  }

  /** `scrape_channel` against the database: check the arguments, look the channel up, then one transaction. */
  method ScrapeChannel(db: Database, p: Provider, channelId: Option<string>, username: Option<string>,
                       category: Option<string>, now: Timestamp, store: StoreOutcome)
      returns (r: Result<ChannelSummary, ChannelError>)
    modifies db`channels, db`channelStats
    ensures r == ChannelScrape(old(db.ChannelState()), p, channelId, username, category, now, store).result
    ensures db.ChannelState() == ChannelScrape(old(db.ChannelState()), p, channelId, username, category, now, store).tables
  {
    if !Given(channelId) && !Given(username) {
      return Failure(MissingIdentifier);
    }
    if p.buildError.Some? {
      return Failure(ApiInitFailed);
    }
    var query := if Given(channelId) then ById(channelId.value) else ByUsername(username.value);
    var response := p.channels(query);
    if response.Fail? {
      match response.failure
      case HttpError(status, _, text) =>
        if status == 403 {
          if Contains(text, "quotaExceeded") {
            return Failure(QuotaExceeded);
          } else {
            return Failure(AccessForbidden);
          }
        } else if status == 400 {
          return Failure(InvalidIdentifier);
        } else {
          return Failure(ApiError(text));
        }
      case ConnectionError(detail) => return Failure(Unhandled(detail));
    }
    if |response.value| == 0 {
      return Failure(ChannelNotFound);
    }
    var item := response.value[0];
    var id := item.id;
    var subscribersCount := item.subscriberCount.GetOr(0);
    var totalVideoCount := item.videoCount.GetOr(0);
    var totalViewCount := item.viewCount.GetOr(0);

    if store == OpenFails {
      return Failure(StoreUnreachable);
    }
    // The transaction: both writes are pending until the commit.
    var channels := db.channels;
    if id !in channels {
      channels := channels[id := ChannelRow(item.title, item.publishedAt, category)];
    }
    var stats := db.channelStats[id := ChannelStatsRow(subscribersCount, totalVideoCount, totalViewCount,
                                                       item.description, item.profilePicture, item.bannerImage, now)];
    if store == StatementFails {
      // Rolled back: neither write is kept.
      return Failure(DatabaseError);
    }
    db.channels, db.channelStats := channels, stats;
    return Success(ChannelSummary(id, item.title, subscribersCount, totalVideoCount, totalViewCount));
  }

  /**
   * `delete_channel`: both deletes run in one transaction, which commits only when the
   * store does; `committed` says whether it did.
   */
  method DeleteChannel(db: Database, channelId: string, store: StoreOutcome) returns (committed: bool)
    modifies db`channels, db`channelStats
    ensures committed <==> store == Commits
    ensures db.ChannelState() == if committed then DeleteFrom(old(db.ChannelState()), channelId) else old(db.ChannelState())
  {
    if store != Commits {
      return false;
    }
    var channels := db.channels - {channelId};
    var stats := db.channelStats - {channelId};
    db.channels, db.channelStats := channels, stats;
    return true;
  }
}
