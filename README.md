# YouTube scraper core, modelled in Dafny

This project models the write path of a YouTube analytics scraper. The scraper reads
channel and video metadata from the YouTube Data API v3 and stores it in four
PostgreSQL tables: `channels`, `channel_stats`, `videos` and `video_stats`. The model
covers these parts of the scraper:

- `parse_duration` turns the API's ISO 8601 duration strings into seconds. It uses a
  regular expression that is anchored at the start of the string only.
- The format rule classifies a video as `shorts` (at most 60 seconds) or `video`.
- `scrape_video_by_id` fetches one video. It then inserts or updates its `videos` row and
  upserts its `video_stats` row, both in one transaction.
- `scrape_channel_videos` resolves a channel's uploads playlist and walks its pages.
  Page size is capped at 50 items. The walk stops on an empty page, on a missing
  next-page token, or after `max_pages` pages. Each video whose duration matches the
  requested type is scraped with the channel's stored category, or `Other` when there is
  none. The walk returns how many videos it scraped.
- `scrape_channel` checks its arguments and looks the channel up by id or by username.
  It turns HTTP errors into scraper errors. It inserts the `channels` row only when the
  channel is not stored yet, and always overwrites `channel_stats`.
- `delete_channel` removes both rows of a channel.

Layout:

- `wrappers.dfy` holds `Option` and `Result`.
- `duration.dfy` holds the duration reader and the format rule.
- `store.dfy` holds the table rows and the `Database` class. The class has one map field
  per table.
- `youtube_api.dfy` holds the API's answers as data. A `Provider` gives one total
  function per request kind, plus the error that building the client raises, if any.
- `video_scraper.dfy` and `channel_scraper.dfy` hold the two scrapers.

Each scraper operation appears twice:

- a function on the tables, which is the specification;
- a method on `Database`, which follows the source's steps and is proved to agree with
  that function.

The properties are then proved about the functions. Inputs the program gets from the
outside are parameters of the model:

- the API answers;
- the database clock (`now`);
- whether the database commits, cannot be reached, or fails a statement
  (`StoreOutcome`). For a channel walk this is given per video id.

## Model

| member | source | states |
|---|---|---|
| Duration.DigitPrefix | src/functions/VideoScraper.py:13 | a greedy `\d+` takes the longest run of digits at the front: every character before the cut is a digit and the one at the cut is not |
| Duration.DigitPrefixOf | src/functions/VideoScraper.py:13 | digits followed by a non-digit or the end are read up to exactly their length |
| Duration.Group | src/functions/VideoScraper.py:13 | one optional group `(?:(\d+)U)?` splits the text into the designator it read (digits and letter, or nothing) and the text after it |
| Duration.GroupSkips | src/functions/VideoScraper.py:13 | a group reads nothing unless the text opens with digits followed by the group's letter |
| Duration.GroupTakenWhenBegun | src/functions/VideoScraper.py:13 | when the text opens with digits and the group's letter, the group is taken |
| Duration.GroupReadsDesignator | src/functions/VideoScraper.py:13 | a group reads back the designator in front of it, and a skipped group leaves the text alone |
| Duration.DesignatorBlocks | src/functions/VideoScraper.py:13 | a designator with one unit letter cannot be read as a group of another unit |
| Duration.MatchPrefix | src/functions/VideoScraper.py:13-14 | a match covers a prefix of the string: the string is the text of the matched groups followed by the unread rest |
| Duration.MatchRendered | src/functions/VideoScraper.py:13-14 | matching the text of some groups followed by more text gives those groups back exactly when the rest cannot be read as a group that may still follow |
| Duration.ParseRendered | src/functions/VideoScraper.py:18-24 | the result is days*86400 + hours*3600 + minutes*60 + seconds, with a missing group counting as 0, whatever unread text follows |
| Duration.MatchHasHead | src/functions/VideoScraper.py:13-16 | every match opens with `P`, an optional day count with `D`, then `T` |
| Duration.HeadIsMatched | src/functions/VideoScraper.py:13-16 | every string opening with that head is matched |
| Duration.MatchIffHead | src/functions/VideoScraper.py:13-16 | the pattern matches exactly the strings that open with the head |
| Duration.ParseDuration | src/functions/VideoScraper.py:11-24 | a string that does not open with `P`, optional days and `T` is read as 0 seconds, whatever else it holds |
| Duration.ParseMinutesSecondsExample | src/functions/VideoScraper.py:11-24 | `PT1M30S` is 90 seconds |
| Duration.ParseDaysHoursExample | src/functions/VideoScraper.py:11-24 | `P1DT2H` is 93600 seconds |
| Duration.ParseZeroExample | src/functions/VideoScraper.py:11-24 | `PT0S`, the default for a video without a duration, is 0 seconds |
| Duration.ParseOutOfOrderExample | src/functions/VideoScraper.py:13-14 | in `PT30S1M` the seconds end the match and the trailing minutes are ignored: 30 seconds |
| Duration.ParseDanglingDigitsExample | src/functions/VideoScraper.py:13-14 | in `PT1H30` the digits without a letter are ignored: 3600 seconds |
| Duration.ParseNoHeadExamples | src/functions/VideoScraper.py:14-16 | `garbage`, `P1D` (no `T`) and `P1W` (weeks are not read) are all 0 seconds |
| Duration.FormatOf | src/functions/VideoScraper.py:121-122 | a duration is a short exactly when it is at most 60 seconds, and a video exactly when it is longer |
| Duration.FormatName | src/functions/VideoScraper.py:121-122 | the stored label is `shorts` exactly for a short and `video` exactly for a video |
| Duration.FormatLabels | src/functions/VideoScraper.py:121-122 | a duration's label is `shorts` exactly up to 60 seconds and `video` exactly beyond |
| VideoScraper.VideoRowOf | src/functions/VideoScraper.py:109-122 | a new `videos` row takes its channel and publication time from the item, and its format always agrees with its duration |
| VideoScraper.VideoStatsOf | src/functions/VideoScraper.py:114-126 | a `video_stats` row takes the item's view, like and comment counts (0 when missing), its description (empty when missing) and its tags (none when missing), and is stamped with the scrape time |
| VideoScraper.FetchVideo | src/functions/VideoScraper.py:84-103 | the lookup succeeds exactly when the client builds and the API returns at least one item, and yields the first item. A client that cannot be built and any non-HTTP failure are "failed to connect" with their text; an HTTP error is an API error with its reason; an empty answer is "video not found" |
| VideoScraper.UpsertVideo | src/functions/VideoScraper.py:133-161 | a new id gets the whole row; an existing row takes the new title, category, format and duration but keeps its channel and publication time; no other row changes |
| VideoScraper.ScrapeVideo | src/functions/VideoScraper.py:84-200 | it succeeds exactly when the video is found and the store commits. Any failure leaves both tables unchanged. A failed lookup raises the lookup's own error, so an empty answer is "video not found". A found video with a failing store is a database error. On success exactly this id is added or updated in both tables, with this category, a consistent format and the item's counts (0 when missing), and the summary is returned |
| VideoScraper.UpsertTwice | src/functions/VideoScraper.py:133-161 | upserting the same row twice is upserting it once |
| VideoScraper.ScrapeVideoIdempotent | src/functions/VideoScraper.py:133-181 | scraping a video twice gives the same tables as scraping it once at the later time: one row per id in each table |
| VideoScraper.ScrapeVideoKeepsFormats | src/functions/VideoScraper.py:118-122 | a scrape keeps every stored format in agreement with its stored duration |
| VideoScraper.ScrapeVideoById | src/functions/VideoScraper.py:75-200 | the imperative scrape returns what `ScrapeVideo` returns and leaves the tables as `ScrapeVideo` says |
| VideoScraper.StoreFailureAsWritten | src/functions/VideoScraper.py:129-192 | as written, only a failing statement is reported as a database error; an unreachable database raises `UnboundLocalError` |
| VideoScraper.OpenFailureAsWritten | src/functions/VideoScraper.py:129-192 | for a found video and an unreachable database, the code as written does not raise the database error that the corrected model reports |
| VideoScraper.CategoryFor | src/functions/VideoScraper.py:212-216 | a walk's category is the channel's stored category exactly when the channel is stored with a non-empty one, and `Other` otherwise; it is never empty |
| VideoScraper.IsMatch | src/functions/VideoScraper.py:271-275 | an item is taken exactly when the requested type is the label of its duration's format |
| VideoScraper.MatchingBounds | src/functions/VideoScraper.py:262-287 | the filter takes at most every item, and none for a type other than `shorts` or `video` |
| VideoScraper.FilterExample | src/functions/VideoScraper.py:271-275 | of four videos whose durations read as 30, 90, 45 and 120 seconds, `shorts` takes exactly the first and the third |
| VideoScraper.MatchingAppend | src/functions/VideoScraper.py:262-287 | filtering two batches in turn is filtering their concatenation |
| VideoScraper.IngestedWithTrans | src/functions/VideoScraper.py:277-287 | two runs of scrapes with one category compose into one run over both id lists |
| VideoScraper.IngestItemSpec | src/functions/VideoScraper.py:262-287 | one item adds its id to both tables when it matches and its scrape succeeds, and nothing otherwise |
| VideoScraper.IngestFromSpec | src/functions/VideoScraper.py:262-287 | the ids scraped from a batch are, in order, a prefix of the batch's matching ids, and all of them when no scrape fails |
| VideoScraper.IngestBatchSpec | src/functions/VideoScraper.py:255-287 | after one fetched batch, what the walk has scraped is still a prefix of the matching items of all batches so far, and all of them when no scrape failed |
| VideoScraper.WalkFrom | src/functions/VideoScraper.py:240-295 | from any point the loop asks at most the remaining number of pages, and on success it returns the number of videos it scraped |
| VideoScraper.WalkFromStops | src/functions/VideoScraper.py:240-293 | from any point a successful loop has stopped only because it asked every remaining page, or because the last page it asked for was empty or came without a next-page token |
| VideoScraper.WalkFromFetched | src/functions/VideoScraper.py:242-262 | from any point each batch the loop records is the API's answer for the ids of the non-empty page of the same request, with at most one batch per page; a successful loop has a batch for every page it asked for except a last empty one |
| VideoScraper.WalkFromRequests | src/functions/VideoScraper.py:240-249 | from any point every request the loop makes asks the uploads playlist for the capped page size |
| VideoScraper.WalkFromSpec | src/functions/VideoScraper.py:240-295 | from any point, what the loop scrapes is a prefix of the matching items it fetched. On success it is all of them, and the count returned is their number |
| VideoScraper.WalkFromChained | src/functions/VideoScraper.py:240-293 | the loop keeps the paging protocol: each request after the first carries the token of the previous non-empty answer |
| VideoScraper.WalkPaging | src/functions/VideoScraper.py:219-293 | a channel walk requests at most `max(0, max_pages)` pages. Each request asks the channel's uploads playlist for `min(max_videos_per_page, 50)` items. The first request has no token and each later one carries the token of the previous non-empty answer |
| VideoScraper.WalkCount | src/functions/VideoScraper.py:242-297 | the batches a walk fetched are the API's answers for its non-empty pages, one per page, and on success one for every page but a last empty one. The count returned is the number of items in them whose duration matches the type, at most the number fetched, and nothing is scraped for an unknown type. What is scraped is always a prefix of the matching items. When the API fails part-way, every matching video fetched before the failure was scraped and stays scraped; when a scrape fails, every matching video before it was scraped |
| VideoScraper.WalkStore | src/functions/VideoScraper.py:212-287 | a walk, even one that fails part-way, leaves exactly its scraped videos upserted and nothing rolled back. Each has the channel's stored category, or `Other` when that is absent or empty, and the title, parsed duration and statistics that a lookup of its id answers, stamped with the scrape time. A video that was not stored before has the whole row a single scrape of it inserts, with the lookup's channel and publication time; one that was stored kept its channel and publication time. Every other row is unchanged |
| VideoScraper.WalkKeepsFormats | src/functions/VideoScraper.py:262-287 | a walk keeps every stored format in agreement with its duration |
| VideoScraper.WalkNoPages | src/functions/VideoScraper.py:240 | with `max_pages <= 0` a walk over a known channel requests nothing, writes nothing and returns 0 |
| VideoScraper.WalkChannel | src/functions/VideoScraper.py:202-298 | a walk over a channel that does not resolve to an uploads playlist fails before any page is requested or any row is written, an empty lookup being "channel not found"; otherwise it asks at most `max(0, max_pages)` pages. On success it returns the number of videos scraped, and it has either asked `max(0, max_pages)` pages or stopped right after a page that was empty or had no next-page token. A resolving channel's walk succeeds whenever the API answers every request and every matching video's scrape commits, whatever category is stored |
| VideoScraper.WalkFailureCause | src/functions/VideoScraper.py:218-298 | a failed walk failed for one of the source's reasons only: the client could not be built or the channel lookup failed or came back empty, with nothing requested or written; the answer to its last page request or to that page's videos failed; or a matching video's scrape failed, with that scrape's own error |
| VideoScraper.WalkExample | src/functions/VideoScraper.py:240-295 | a `shorts` walk over one page without a next-page token, whose videos read as 30, 90, 45 and 120 seconds, scrapes the first and the third and returns 2 |
| VideoScraper.WalkFromSucceeds | src/functions/VideoScraper.py:240-295 | from any point, the loop succeeds when the API answers every request and every matching video's scrape commits |
| VideoScraper.WalkFromFails | src/functions/VideoScraper.py:240-297 | from any point, a failed loop failed on the answer to its last request or to that page's videos, having scraped every matching video fetched, or on a matching video's scrape, with its error, having scraped every matching video before it |
| VideoScraper.WalkFromStored | src/functions/VideoScraper.py:277-287 | from any point, every video the loop scraped is stored with the title, duration and statistics its lookup answers, and every new one with the whole row its first scrape inserts |
| VideoScraper.IngestFromSucceeds | src/functions/VideoScraper.py:262-287 | a batch whose matching videos are all found and commit is scraped without a failure |
| VideoScraper.IngestFromAll | src/functions/VideoScraper.py:262-287 | such a batch is scraped in full: exactly its matching ids, in order |
| VideoScraper.IngestFromOutcome | src/functions/VideoScraper.py:262-287 | without a failure a batch's matching ids are all scraped; a failure is the failed scrape of a matching video, with its own error, after every matching video before it |
| VideoScraper.IngestItemStored | src/functions/VideoScraper.py:277-287 | one item keeps every scraped video stored as its lookup answers, and stores its own video that way when it is scraped |
| VideoScraper.IngestItemInserted | src/functions/VideoScraper.py:277-287 | one item keeps every newly stored video with the row its first scrape inserted, and gives its own video that row when it is new |
| VideoScraper.ScrapeLeavesFirstRow | src/functions/VideoScraper.py:133-161 | a committed scrape of a new id, or of one whose row is already its first-scrape row, leaves exactly the row a first scrape of the lookup's item inserts |
| VideoScraper.IngestFromStored | src/functions/VideoScraper.py:262-287 | the rest of a batch keeps every scraped video stored as its lookup answers, and every new one with the row its first scrape inserts |
| VideoScraper.IngestBatch | src/functions/VideoScraper.py:262-287 | the inner `for` loop leaves the tables, the scraped ids and the failure that `IngestFrom` gives for the batch, and counts the ids it scraped |
| VideoScraper.WalkPage | src/functions/VideoScraper.py:240-293 | one pass of the `while` loop either goes on with the next-page token, and the rest of the walk is `WalkFrom` from the next page, or stops with exactly the result, tables, requests and batches `WalkFrom` gives |
| VideoScraper.WalkUploads | src/functions/VideoScraper.py:238-295 | the `while` loop returns the result, leaves the tables and issues the page requests that `WalkFrom` gives from the first page |
| VideoScraper.ScrapeChannelVideos | src/functions/VideoScraper.py:202-298 | the imperative walk returns the result, leaves the tables and issues the page requests that the `WalkChannel` specification gives |
| ChannelScraper.ResolveQuery | src/functions/ChannelScraper.py:77-96 | missing or empty channel id and username is an error, and only then. A given id is asked for by id. Otherwise the username is asked for |
| ChannelScraper.Contains | src/functions/ChannelScraper.py:102 | the substring test holds when the text opens with the substring, and only when the substring is no longer than the text |
| ChannelScraper.ContainsAt | src/functions/ChannelScraper.py:102 | an occurrence of the text at any index makes the substring test hold |
| ChannelScraper.FirstOccurrence | src/functions/ChannelScraper.py:102 | when the substring test holds, the text occurs at a first index |
| ChannelScraper.HttpErrorToChannelError | src/functions/ChannelScraper.py:100-109 | 403 with `quotaExceeded` in the error text is quota exceeded. Any other 403 is forbidden. 400 is an invalid identifier. Every other status is an API error carrying the text. Each holds in both directions |
| ChannelScraper.FetchChannel | src/functions/ChannelScraper.py:81-115 | a client that cannot be built is an init failure. An HTTP error is mapped as above. Any other failure of the request is left unhandled, with its text. An empty answer is "channel not found". Success is the first item |
| ChannelScraper.ChannelRowOf | src/functions/ChannelScraper.py:123-134 | a new `channels` row takes the item's title and publication time and the given category |
| ChannelScraper.ChannelStatsOf | src/functions/ChannelScraper.py:123-134 | a `channel_stats` row takes the item's subscriber, video and view counts (0 when missing), its description, picture and banner, and is stamped with the scrape time |
| ChannelScraper.ChannelScrape | src/functions/ChannelScraper.py:64-217 | success exactly when the arguments, the lookup and the store all succeed. Any failure changes nothing. A failed lookup raises the lookup's own error: the HTTP status mapping, or "channel not found" for an empty answer. Rows are keyed by the id the API returns. The `channels` row is inserted only when absent. `channel_stats` is overwritten, with missing counts as 0. The summary carries those counts |
| ChannelScraper.ChannelScrapeIdempotent | src/functions/ChannelScraper.py:146-204 | a second scrape with the same answers returns the same summary and leaves the tables as one scrape at the later time, whatever category it is given |
| ChannelScraper.FirstScrapeKeepsChannelRow | src/functions/ChannelScraper.py:148-162 | the channel row holds what the first scrape stored; later scrapes change only the statistics |
| ChannelScraper.DeleteFrom | src/functions/ChannelScraper.py:53-62 | deleting removes the channel from both tables and changes no other row |
| ChannelScraper.DeleteUndoesFirstScrape | src/functions/ChannelScraper.py:53-62 | deleting a channel that a scrape added gives back the tables as they were before it |
| ChannelScraper.ScrapeAfterDeleteInsertsAfresh | src/functions/ChannelScraper.py:148-162 | after a delete, the next scrape inserts the channel row anew with the new category |
| ChannelScraper.ScrapeChannel | src/functions/ChannelScraper.py:64-217 | the imperative scrape returns what `ChannelScrape` returns and leaves the tables as it says |
| ChannelScraper.DeleteChannel | src/functions/ChannelScraper.py:53-62 | the deletes take effect exactly when the transaction commits, and then as `DeleteFrom` says |

## Left out

- Network access, client building and API keys: the API is a `Provider` value of given answers, and its build error is an optional message.
- KeyErrors from malformed API payloads (a missing `snippet`, `statistics` or `thumbnails`) are not modelled; items are well-formed records.
- `int()` failures on non-numeric counts are not modelled; counts are already natural numbers or missing.
- Datetime parsing: publication times are kept as the provider's text, and the stats rows' scrape time is the parameter `now`.
- `\d` in Python also matches non-ASCII decimal digits; the model reads ASCII digits only.
- VideoScraper.ScrapeVideo: reports `DatabaseError` also when the connection or cursor cannot be opened, where the code as written raises `UnboundLocalError` (see Findings).
- `get_channels`, `get_channel_categories`, `select_channel_name` and `get_videos` are read-only queries for the dashboard; they are not part of this model, nor is the dashboard's user interface (`app.py`).
- A failure to reach the database inside `select_video_category` raises before the walk starts; the walk takes the stored `channels` map as its input.
- Foreign keys and cascades between the tables are not modelled; the tables are independent maps.
- Where a channel walk fails, every underlying cause is wrapped in one "Channel Scrape Failed" error; the model keeps the cause as a `WalkFailure` case instead of its text.
- ChannelScraper.DeleteChannel: a failed statement is modelled as an uncommitted transaction that changes nothing; the exception it raises is not modelled.
- VideoScraper.WalkFrom: one scrape time `now` stamps every video of a walk, where the code takes the database clock in each video's own transaction; the model does not order those times.
- VideoScraper.WalkFrom: the store's outcome is a function of the video id, so an id that occurs twice in one walk meets the same outcome both times, where the database could answer each transaction differently.
- The rendering of messages (`str(e)`, f-strings) is not modelled; errors carry the parts the message is built from.

## Findings

| source | as written | input that shows it | evidently intended | confidence | as-written member | corrected member |
|---|---|---|---|---|---|---|
| src/functions/VideoScraper.py:129-192 | `conn` and `cursor` are first assigned inside the `try`, and the `except` and `finally` blocks test them | a found video while the database refuses the connection: `if conn:` and then `if cursor:` read unassigned locals, so `UnboundLocalError` is raised instead of "Database error" | every failure of the store is reported as "Database error" with both tables unchanged | not executed | VideoScraper.StoreFailureAsWritten | VideoScraper.ScrapeVideo |
