# AirBnB marketing pipeline: a verified model of its core

This Dafny project models the core of an Airbnb listing marketing system. The system
collects listings for Korean cities, builds social-media content for each listing, publishes
that content on a schedule, records every posting result, and serves read-only aggregations of
those records to a dashboard. The model covers:

- `Database.Store`: the `DatabaseManager` store. It holds the properties, content,
  posting_history and conversions tables in memory, with a method per SQL operation. Each
  method's new table is given by a function of the old one, and lemmas state what the SQL
  promises: upsert by id, FIFO pending selection, the posted-flag invariant, the conditional
  counter update and the idempotent horizon purge.
- `Scheduler`: the `MarketingScheduler` running flag and its tagged job registry, and the
  posting cycle over the store. It also covers the pure report builders: the weekly report,
  the top properties, the monthly report and the recommendations.
- `Social`: the deterministic part of `SocialMediaManager`. This is which platform results a
  publish produces, the failure when a client is missing, the image lookup and the UTM
  tracking URL.
- `AnalyticsRoutes`, `DashboardRoutes`, `NotificationRoutes`, `PropertyRoutes`: the
  aggregation bodies of the API routes. Each takes the rows it read as input. This covers
  day, platform and ISO-week partitions, rates, rankings, CSV export, filtering, pagination,
  the cities list, the price buckets and the status toggle.
- `Config`: the city table, platform enablement, configuration validation and the
  `POSTING_SCHEDULE` list.
- `Content`: the hashtag candidates and their sampling, price grouping, caption assembly,
  title truncation and the shape of the content dict and its image list.
- `Scraper`: the mock listing batches, the per-city collection with its `[:limit]` cut and
  the keyword search.
- `FrontendUtils`: `cn`, `formatRelativeTime`, `getStatusColor` and `getStatusIcon`.
- `WebSocket`: the dashboard's `WebSocketService`. This is its listener registry, a map of
  lists mutated in place, and the connected guards.
- `Common`: the shared vocabulary. This is Python slicing, SQL `LIMIT`/`OFFSET`, stable
  sorting, counting, the dict-counter loop, splitting, joining and stripping.

Conventions:

- Time is an integer clock in seconds. `now` is the value `datetime.now()` would give.
- Randomness (`random.choice`, `random.sample`, the mock fields) is a parameter. It is
  constrained only by what the source draws from.
- Exceptions raised by collaborators that are not modelled are a parameter. One example is
  the set of content ids whose processing raises in the posting cycle.
- Rates are exact `real` ratios of integer counts.

Two behaviours of the code that a reader might not expect, both modelled as written:

- `update_conversion_stats` is an `UPDATE` that creates no row for an untracked
  (property, platform) pair.
- The posting cycle marks an item posted whatever its platform results say, and only skips
  the mark when processing the item raises.

## Model

| member | source | states |
|---|---|---|
| Database.Lookup | src/database.py:230-253 | a row comes back exactly when some property has that id, and it is a row of the table with that id |
| Database.JoinRows | src/database.py:289-296 | the inner join yields one item per selected row, in order, each built from that row and the property its `property_id` names |
| Database.JoinLoop | src/database.py:301-312 | the result-building loop over the fetched rows produces exactly the join |
| Database.UpsertExisting | src/database.py:133-164 | saving an id already present overwrites the listing columns and `scraped_at`, sets `is_active = 1`, keeps `created_at`, and leaves every other row as it was |
| Database.UpsertNew | src/database.py:165-197 | saving a new id appends one active row carrying the given (or current) creation and scrape times after the untouched old rows |
| Database.UpsertKeepsKey | src/database.py:130-197 | a save keeps the `id TEXT PRIMARY KEY` constraint and leaves exactly one row for the saved id |
| Database.UpsertIdempotent | src/database.py:130-197 | saving the same data twice at the same moment gives the same table as saving it once |
| Database.ActiveWindowProps | src/database.py:255-278 | `get_all_properties` returns only active rows of the table, newest scrape first: the page is positions [offset, offset + limit) of the active rows ordered newest first, holding min(limit, active rows after the offset) of them, and with offset 0 and no binding limit every active row |
| Database.AppendContentShape | src/database.py:211-225 | `_save_content_data` appends exactly one unposted row per platform entry, in entry order, with that platform and content, after the untouched old rows |
| Database.AppendContentValid | src/database.py:59-67 | inserting content keeps the AUTOINCREMENT ids distinct and below the next id, and keeps `is_posted` set exactly when `posted_at` is |
| Database.MarkPostedFrame | src/database.py:320-332 | marking changes only the rows with that id (posted, stamped now, other columns kept); an unknown id changes nothing |
| Database.MarkPostedValid | src/database.py:325-329 | marking keeps the content key and the posted invariant |
| Database.PendingRowsProps | src/database.py:289-296 | pending content is first in, first out: only unposted rows whose property exists, oldest first, exactly min(limit, candidates) of them for a non-negative limit, no left-out candidate older than a selected one, and every candidate when the limit does not bind |
| Database.CandidateMembers | src/database.py:292-293 | every candidate is an unposted row of the table whose property row exists |
| Database.HistoryEntryProps | src/database.py:338-360 | recording a result appends one row whose status is 'success' exactly when the result succeeded and 'failed' otherwise, with the given property, platform and time, and an empty error message when none was given |
| Database.AnalyticsRowsProps | src/database.py:366-400 | the analytics query returns exactly the rows inside the day window that match the optional property and platform filters and have a property row, each once, newest first |
| Database.UpsertTrackingProps | src/database.py:406-435 | tracking an existing (property, platform) pair changes only its URL and update time and keeps its counts; a new pair gets one row with zero clicks and conversions; pairs stay unique |
| Database.AddStatsProps | src/database.py:441-455 | the click and conversion deltas are added to the matching row only; an untracked pair leaves the table unchanged (no row is created) |
| Database.AddStatsTotals | src/database.py:446-452 | with the pair tracked once, the table's click and conversion totals grow by exactly the deltas |
| Database.AddStatsUntracked | src/database.py:446-452 | an UPDATE whose WHERE matches no row leaves the table as it was |
| Database.ConversionRowsProps | src/database.py:461-488 | the statistics query returns exactly the rows with a property row, of the given property when one is given, most recently updated first |
| Database.PurgeHistoryProps | src/database.py:501-504 | the purge keeps exactly the history rows at or after the horizon, in order, and purging again removes nothing |
| Database.DeactivateProps | src/database.py:507-511 | deactivation turns off exactly the rows scraped before the horizon, changes no other column, and is idempotent |
| Database.Store.constructor | src/database.py:18-118 | a fresh database has every table empty and each AUTOINCREMENT counter at 1, and satisfies the store invariant |
| Database.Store.SaveProperty | src/database.py:123-209 | a property without an id fails with False and changes nothing; otherwise the property is upserted, one content row per platform entry is appended, and True is returned; other tables are unchanged and the invariant is kept |
| Database.Store.SaveContentData | src/database.py:211-228 | one content row per entry, appended in order with consecutive ids; nothing else changes |
| Database.Store.GetProperty | src/database.py:230-253 | the row with that id, active or not, or nothing when no row has it |
| Database.Store.GetAllProperties | src/database.py:255-282 | the active window of the properties table |
| Database.Store.GetPendingContent | src/database.py:284-318 | the pending rows, each joined with its property |
| Database.Store.MarkContentAsPosted | src/database.py:320-336 | True in every case; the content table becomes the marked table; nothing else changes |
| Database.Store.SavePostingHistory | src/database.py:338-364 | True; exactly one history row appended with the next id; nothing else changes |
| Database.Store.GetPostingAnalytics | src/database.py:366-404 | the selected history rows joined with their property's title and city |
| Database.Store.SaveConversionTracking | src/database.py:406-439 | True; the conversions table becomes the tracked table and the counter moves only for a new pair |
| Database.Store.UpdateConversionStats | src/database.py:441-459 | True; the deltas are added to the matching row; nothing else changes |
| Database.Store.GetConversionStats | src/database.py:461-492 | the selected conversions rows joined with their property's title and city |
| Database.Store.CleanupOldData | src/database.py:494-519 | True; old history deleted and stale properties deactivated at the same horizon; content and conversions untouched |
| Social.Setup | src/social_media_manager.py:30-80 | the Instagram client exists exactly when both credentials are set and the login succeeds, the YouTube service exactly when Google credentials are found, and the WordPress client never (the `WordPressAPI` name is not imported, so its construction raises and is swallowed) |
| Social.ImagePath | src/social_media_manager.py:314-317 | the path `generated_images/{id}_{type}.jpg` is returned exactly when that file exists, and nothing otherwise |
| Social.PostToAllPlatforms | src/social_media_manager.py:82-112 | the step-by-step filling of `results['platforms']` yields exactly the dispatch specification, whose sub-posts fail where the source's reads or `[:50]` cuts raise |
| Social.DispatchKeys | src/social_media_manager.py:84-104 | a publish copies the property id and has a `platforms` entry for exactly those of instagram, youtube and blog that `content['platforms']` contains, in that order; it records an error, with no entries, exactly when the membership test raises |
| Social.SelectedProps | src/social_media_manager.py:92-104 | the platforms posted to are those of instagram, youtube, blog that the content mentions, in that order |
| Social.MissingClientFails | src/social_media_manager.py:114-312 | every platform whose client or service is missing gets `{'success': False, 'error': <not initialised>}` with that platform's message, whatever the content |
| Social.InstagramSuccessDespiteFeed | src/social_media_manager.py:114-148 | with a client, the Instagram result reports success even though its feed sub-post failed because the main image file is missing |
| Social.PostToInstagram | src/social_media_manager.py:114-140 | without a client the result is the not-initialised failure, and an unreadable platform entry is a caught exception; otherwise it succeeds with the feed, story and reels sub-results in that order, the story succeeding exactly when the entry is a dict |
| Social.InstagramFeed | src/social_media_manager.py:142-167 | the feed post succeeds exactly when the main image exists and the entry is a dict whose caption can be cut to 50 characters (absent, a string or a list); on success its id is `ig_{id}_{time}`, and a failure carries the missing-image message or the caught exception |
| Social.InstagramStory | src/social_media_manager.py:169-187 | the story succeeds exactly when the entry is a dict, with the id `story_{id}_{time}` |
| Social.InstagramReels | src/social_media_manager.py:189-207 | the reels post succeeds exactly when the entry is a dict whose `reels_script` can be cut to 50 characters, with the id `reels_{id}_{time}` |
| Social.PostToYouTube | src/social_media_manager.py:209-231 | without a service the result is the not-initialised failure; it succeeds exactly when the service exists and the platform entry can be read, with the video and shorts sub-results in that order |
| Social.YouTubeVideo | src/social_media_manager.py:233-254 | the upload succeeds exactly when the entry is a dict whose `tags` is absent or a string (`.split()` raises otherwise); the id is `yt_{id}_{time}` and the URL is the watch URL of that id |
| Social.YouTubeShorts | src/social_media_manager.py:256-276 | the upload succeeds exactly when the entry is a dict whose `shorts_script` can be cut to 50 characters; the id is `shorts_{id}_{time}` and the URL is the shorts URL of that id |
| Social.PostToBlog | src/social_media_manager.py:278-312 | without a client the result is the not-initialised failure; it succeeds exactly when the client exists and the blog entry is a dict whose `tags` is absent or a string, with the id `blog_{id}_{time}` and the URL `https://your-blog.com/{id}` |
| Social.InstagramOutcome | src/social_media_manager.py:114-140 | with a client, the Instagram result succeeds exactly when its platform entry can be read |
| Social.BlogAlwaysFails | src/social_media_manager.py:66-80 | a manager built by the setup has no WordPress client, so every blog result of its dispatch is the not-initialised failure |
| Social.TrackingUrlInjective | src/social_media_manager.py:365-380 | for property ids without '?', the tracking URL determines both the property and the platform |
| Scheduler.ParseTimesProps | src/scheduler.py:25-28 | parsing gives one time per comma-separated piece of the schedule text, each free of commas and of surrounding white space in the sense of Python's `str.isspace()`, Unicode spaces included |
| Common.UnicodeSpaces | src/scheduler.py:28 | the strip removes Unicode white space as `str.strip()` does: an IDEOGRAPHIC SPACE before a time is stripped, leaving `15:00` |
| Scheduler.StripAllNoop | src/scheduler.py:28 | times that are already trimmed come through the strip unchanged |
| Scheduler.ParseThree | src/scheduler.py:25-28 | three trimmed, comma-free times joined by commas parse back to exactly those three times |
| Scheduler.DefaultPostingSchedule | src/scheduler.py:27 | without `POSTING_SCHEDULE` the posting times are 09:00, 15:00 and 21:00 |
| Scheduler.PostingJobs | src/scheduler.py:86-90 | one daily posting job per configured time, at that time, in order |
| Scheduler.AcceptedPrefix | src/scheduler.py:86-90 | registration accepts the longest prefix of times the library accepts and stops at the first time it rejects |
| Scheduler.RegisteredShape | src/scheduler.py:30-98 | a completed start registers the three daily jobs (06:00, 07:00, 08:00), exactly one posting job per configured time in order, the Sunday 02:00 cleanup and the monthly report, and nothing else is a posting job |
| Scheduler.ClearTagProps | src/scheduler.py:441-448 | clearing a tag removes exactly the jobs that carry it and keeps the others in their order |
| Scheduler.AddThenRemove | src/scheduler.py:432-448 | adding a custom job and then removing its tag leaves the registry as removing the tag alone would |
| Scheduler.MarketingScheduler.constructor | src/scheduler.py:19-28 | a new scheduler is not running and holds the parsed posting times |
| Scheduler.MarketingScheduler.Start | src/scheduler.py:30-54 | a running scheduler is left alone; otherwise the jobs are registered in order up to the first step that raises, and the running flag is raised exactly when no step raised |
| Scheduler.MarketingScheduler.Stop | src/scheduler.py:56-61 | stopping lowers the flag and leaves the registered jobs in the registry |
| Scheduler.MarketingScheduler.AddCustomSchedule | src/scheduler.py:432-439 | one daily job tagged with the job name, or `custom_<seconds>` without one, is added exactly when the library accepts the time |
| Scheduler.MarketingScheduler.RemoveSchedule | src/scheduler.py:441-448 | the registry loses the jobs of the tag (all jobs for no tag) and nothing else changes |
| Scheduler.RestartDuplicates | src/scheduler.py:30-61 | stopping and starting again registers every posting job a second time, since stop clears nothing |
| Scheduler.Records | src/scheduler.py:175-180 | one history record per platform result, carrying the property id, the platform and its result |
| Scheduler.SaveResults | src/scheduler.py:175-180 | the history grows by exactly the rows of those records with consecutive ids; properties, content and conversions are unchanged |
| Scheduler.ProcessItem | src/scheduler.py:167-186 | one item is published with its stored payload, each platform result is recorded, and the item is marked posted |
| Scheduler.PostItems | src/scheduler.py:166-186 | the loop over the selected items appends the records of every item that did not raise and marks exactly those items posted |
| Scheduler.RunScheduledPosting | src/scheduler.py:152-191 | a cycle takes the pending items of the batch of ten, records the results of each item that did not raise, marks it posted whatever the results, and changes no property or conversion |
| Scheduler.RunScheduledPostingCorrected | src/scheduler.py:152-191 | the same cycle with each payload wrapped under its own platform before publishing |
| Scheduler.CycleBatch | src/scheduler.py:164 | a cycle handles at most ten items, each an unposted content row joined to the property it names |
| Scheduler.MarkAllEffect | src/scheduler.py:183 | after the cycle every marked content row is posted at the cycle's time and every other row is as before |
| Scheduler.MarkedIdsExact | src/scheduler.py:167-186 | the marked ids are exactly those of the items that did not raise; the publishing results play no part |
| Scheduler.CycleRecordsLength | src/scheduler.py:167-180 | each item adds at most three history records, each for instagram, youtube or blog |
| Scheduler.NoPlatformsKey | src/scheduler.py:169-175 | a payload without a `platforms` key publishes nowhere and raises nothing |
| Scheduler.CycleWritesNothing | src/scheduler.py:169-180 | with the stored one-platform payloads the cycle as written records no history row at all |
| Scheduler.CorrectedCycleRecordsOne | src/scheduler.py:169-180 | with wrapped payloads each item that did not raise records exactly one row: its property and its platform |
| Scheduler.WrappedPublishesOnce | src/scheduler.py:169-172 | a wrapped payload of a known platform publishes to exactly that platform |
| Scheduler.WrappedSelected | src/scheduler.py:169-172 | a wrapped payload selects exactly its own platform and raises nothing |
| Scheduler.AnalyticsReportProps | src/scheduler.py:257-294 | failed posts are the non-success posts, the rate lies in 0..100 and is 0 without posts, each platform appears once and exactly when it has rows, its total splits into successes and failures, and the per-platform totals add up to the summary |
| Scheduler.PropertyStatsCounts | src/scheduler.py:343-359 | each property's entry counts exactly its rows and its successful rows |
| Scheduler.SuccessShareBounds | src/scheduler.py:361-365 | the ranking key lies between 0 and 1 |
| Scheduler.TopPropertiesProps | src/scheduler.py:340-367 | the top list has min(limit, properties) entries for a non-negative limit, ordered by non-increasing success share, each with the true counters of its property, and no property left out has a larger share than one listed |
| Scheduler.MonthlyReportProps | src/scheduler.py:296-338 | total posts is the number of rows, the rate is 0 without clicks, each platform of the rows gets exactly one entry and no other platform does, with its own post count and the clicks and conversions of its own links |
| Scheduler.PerfPlatforms | src/scheduler.py:305-313 | the platform names of the performance entries, in order |
| Scheduler.RecommendationsProps | src/scheduler.py:373-398 | one message per platform with posts and a rate below 5 % or above 15 %, naming that platform with the matching advice; with none, exactly the three default messages |
| Scheduler.PlatformAdviceProps | src/scheduler.py:378-387 | the platform messages number the platforms that get advice, and every such platform's advice is among them |
| Scheduler.NoClicksIsLow | src/scheduler.py:381-384 | a platform with posts and no clicks is always advised as low |
| Config.SchedulerStripsConfig | config.py:46 | the scheduler's posting times are the settings' list with each piece stripped, and the two agree whenever the pieces carry no white space |
| Config.ConfigKeepsSpaces | config.py:46 | a space after a comma is kept by the settings list and dropped by the scheduler, so the two lists can differ |
| Config.FindCity | config.py:179-184 | a city entry comes back exactly when the table has that name, and it is that name's entry |
| Config.PrioritiesInRange | config.py:49-101 | every city of the table has a priority between 1 and 15 |
| Config.CityPriorityProps | config.py:177-179 | a listed city gets its own priority, between 1 and 15; a name gets 999 exactly when it is not listed |
| Config.CityCoordinatesProps | config.py:182-185 | a listed city gets its own latitude and longitude; any other name gets (0, 0) |
| Config.SortedTake | config.py:190-194 | sorting a table by priority and cutting it leaves entries of the table in ascending priority, min(limit, size) of them for a non-negative limit, and no entry cut off has a smaller priority number than one kept |
| Config.PriorityCitiesProps | config.py:188-194 | the priority cities are the names of table entries in ascending priority, min(limit, 15) of them for a non-negative limit, and no city left out has a smaller priority number than one returned |
| Config.EnabledPlatformsProps | config.py:210-223 | a platform is listed exactly when its credentials are all set, the list keeps the order instagram, youtube, blog, and an unknown platform is never enabled |
| Config.MissingSettings | config.py:155-168 | the loop over a settings list yields the message of each unset setting, in list order |
| Config.ValidateConfig | config.py:143-174 | one error per unset required setting, one warning per unset optional setting, and valid exactly when there is no error |
| Config.UnsetProps | config.py:155-168 | a listed setting is reported exactly when it is unset, once, in list order |
| Config.ValidIffRequiredSet | config.py:149-171 | the configuration is valid exactly when the OpenAI key and the Instagram username and password are all set |
| Content.PriceTierBands | src/content_generator.py:214-219 | the cheap tag is given exactly below 100000, the luxury tag exactly above 150000, and none from 100000 to 150000 |
| Content.ExtraTagsProps | src/content_generator.py:200-221 | the city tag is added exactly when a city is given and first, the type tag exactly when a type is given, the price tag last when there is one; an unknown platform samples from these tags alone |
| Content.Pick | src/content_generator.py:222 | the sampled tags are the candidates at the drawn positions, in draw order |
| Content.SelectionProps | src/content_generator.py:222-224 | the selection holds min(10, n) of the n candidates, each a candidate, and every candidate when there are at most ten |
| Content.FormatThousandsDigits | src/content_generator.py:228-287 | a price rendered with thousands separators reads as its plain decimal number (with its sign) once the commas are removed |
| Content.GroupedDigits | src/content_generator.py:228 | the comma-grouped digits of a natural number are its decimal digits with commas between groups of three |
| Content.CutTitleProps | src/content_generator.py:403-467 | a title longer than the limit keeps its first `limit` characters followed by '...'; a title that fits is drawn unchanged |
| Content.CaptionProps | src/content_generator.py:104 | the Instagram caption is the caption text, a blank line and the hashtags, and both parts can be read back from it |
| Content.ImagesProps | src/content_generator.py:355-391 | an image entry is listed exactly for each image that was saved, once each, in the order main, story, thumbnail |
| Content.ContentDictShape | src/content_generator.py:73-85 | the content dict carries the given property id and exactly the instagram, youtube and blog entries under `platforms` |
| Content.ContentPlatforms | src/content_generator.py:68-87 | the built content's platform entries are the instagram, youtube and blog entries of that listing, and its property id is the listing's |
| Content.CreatePropertyContentProps | src/content_generator.py:68-92 | with an id the content names the three platforms in order under that id; without an id the build fails and the empty dict results |
| Content.InstagramCaptionCarriesTags | src/content_generator.py:94-111 | the Instagram entry's caption ends with the same hashtags the entry lists on their own |
| Scraper.GenerateMockProperties | src/airbnb_scraper.py:86-136 | the generator's loop appends the listings of the batch, one per index, in order |
| Scraper.SearchPropertiesInCity | src/airbnb_scraper.py:71-84 | a city search returns that city's mock batch |
| Scraper.MockBatchProps | src/airbnb_scraper.py:100-134 | a batch holds max(limit, 0) listings, the i-th with id `airbnb_<city>_<i+1>`, the city's name, three image URLs and both timestamps at the generation time |
| Scraper.MockIdsDistinct | src/airbnb_scraper.py:102 | within one city's batch the ids are pairwise distinct |
| Scraper.MockIdInjective | src/airbnb_scraper.py:102 | for city names without '_' the id determines the city and the index |
| Scraper.MockPropertyRanges | src/airbnb_scraper.py:103-127 | a listing's price lies in 50000..200000, its type is one of the listed types, its guests in 2..8, and its three to eight amenities are distinct listed amenities |
| Scraper.GetKoreanProperties | src/airbnb_scraper.py:51-69 | the city loop collects five listings per city in the table's order and returns the `[:limit]` slice of them |
| Scraper.KoreanPropertiesProps | src/airbnb_scraper.py:51-69 | the result is a prefix of the 75 listings collected city by city, of length `limit` capped at 75, and shorter by `-limit` for a negative limit |
| Scraper.CollectedIdsDistinct | src/airbnb_scraper.py:56-102 | over distinct city names free of '_', every collected listing has its own id |
| Scraper.KoreanPropertiesIdsDistinct | src/airbnb_scraper.py:51-69 | the listings returned have pairwise distinct ids |
| Scraper.SearchPropertiesByKeywords | src/airbnb_scraper.py:168-187 | the search loop keeps the listings whose title and description contain a keyword, ignoring case, and returns at most `limit` of them |
| Scraper.SearchProps | src/airbnb_scraper.py:168-187 | every result contains a keyword, the results keep the order of the `2 * limit` listings searched and number at most `limit`, and they are exactly the first `limit` matches (all of them when there are at most `limit`), so a match is left out only when `limit` matches came before it |
| Scraper.NoKeywordsNoResults | src/airbnb_scraper.py:180 | without keywords nothing is found |
| Scraper.CityKeywordMatches | src/airbnb_scraper.py:103-180 | searching for a city's name finds each of that city's listings |
| FrontendUtils.Kept | frontend/src/utils/index.ts:7 | the names kept by the truthiness filter are all non-empty |
| FrontendUtils.CnSplits | frontend/src/utils/index.ts:6-8 | with no truthy argument the class string is empty; otherwise, when no name holds a space, splitting it on spaces gives back the kept names in order |
| FrontendUtils.CnSkipsFalsy | frontend/src/utils/index.ts:7 | a falsy argument anywhere in the list changes nothing |
| FrontendUtils.KeptMembers | frontend/src/utils/index.ts:7 | the kept names are exactly the non-empty class strings among the arguments |
| FrontendUtils.BandBounds | frontend/src/utils/index.ts:26-31 | under a minute is 'just now', a month or more is the absolute date, and each counted band shows the whole number of its unit elapsed: 1-59 minutes, 1-23 hours, 1-29 days |
| FrontendUtils.BandMonotone | frontend/src/utils/index.ts:28-33 | an older date never shows a finer band, nor a smaller count in the same band |
| FrontendUtils.RelativeTimeText | frontend/src/utils/index.ts:23-34 | each band's text is its count (the floor of the seconds over the unit) followed by its unit's word, and past 30 days the formatted date |
| FrontendUtils.MinutesTextInjective | frontend/src/utils/index.ts:29 | two ages in the minutes band show the same text exactly when they fall in the same whole minute |
| FrontendUtils.StatusCaseInsensitive | frontend/src/utils/index.ts:56-76 | the colour and the icon depend only on the lower-cased status |
| FrontendUtils.StatusColorGroups | frontend/src/utils/index.ts:55-72 | green exactly for success/active/completed, red exactly for error/failed/inactive, yellow exactly for warning/pending, blue for anything else |
| FrontendUtils.ColorsDistinct | frontend/src/utils/index.ts:60-70 | the four colour classes are pairwise different |
| FrontendUtils.IconFollowsColor | frontend/src/utils/index.ts:55-90 | the icon matches the colour's group for every status except 'inactive', which is red yet gets the info icon |
| WebSocket.OnMap | frontend/src/services/websocket.ts:48-53 | after `on` the event has a list and no other event gains one |
| WebSocket.IndexOf | frontend/src/services/websocket.ts:58 | the first position of the callback in the list, or -1 exactly when it is absent |
| WebSocket.Invocations | frontend/src/services/websocket.ts:68 | one call per listener, in list order, each with the emitted data |
| WebSocket.WebSocketService.constructor | frontend/src/services/websocket.ts:3-5 | a new service has no socket, no listeners and has sent nothing |
| WebSocket.WebSocketService.Connect | frontend/src/services/websocket.ts:7-39 | a connected socket is kept; otherwise a new, not yet connected socket replaces it; listeners and sent messages are unchanged |
| WebSocket.WebSocketService.Disconnect | frontend/src/services/websocket.ts:41-46 | the socket is dropped and the service is no longer connected; a connected socket's 'disconnect' event first calls the `disconnected` listeners, in order, and an unconnected one calls none |
| WebSocket.WebSocketService.On | frontend/src/services/websocket.ts:48-53 | the registry becomes that of `on` and nothing else changes |
| WebSocket.WebSocketService.Off | frontend/src/services/websocket.ts:55-63 | the registry becomes that of `off` and nothing else changes |
| WebSocket.WebSocketService.Emit | frontend/src/services/websocket.ts:65-70 | each listener of the event is called once with the data, in list order, and none for an unknown event |
| WebSocket.WebSocketService.Send | frontend/src/services/websocket.ts:72-76 | a message reaches the socket exactly when it is connected |
| WebSocket.WebSocketService.IsConnected | frontend/src/services/websocket.ts:78-80 | reports whether the socket is connected |
| WebSocket.WebSocketService.Receive | frontend/src/services/websocket.ts:15-38 | the socket's connect and disconnect set the connection state and call the `connected` and `disconnected` listeners; notification, system_update and error are passed to their own listeners; other events do nothing |
| WebSocket.RemoveFirstProps | frontend/src/services/websocket.ts:55-63 | `off` removes exactly the first occurrence of the callback when there is one and is a no-op otherwise |
| WebSocket.OtherEventsUnchanged | frontend/src/services/websocket.ts:48-63 | `on` and `off` for one event leave every other event's listeners as they were |
| WebSocket.OnAppends | frontend/src/services/websocket.ts:48-53 | `on` appends the callback to the event's list, creating the list when absent |
| WebSocket.OffNoop | frontend/src/services/websocket.ts:56-62 | `off` of an unknown event or an unregistered callback changes nothing |
| WebSocket.OnOffRestores | frontend/src/services/websocket.ts:48-63 | `on` then `off` of the same callback restores the event's listeners as a multiset, and as the very same list when the callback was not registered before |
| WebSocket.OnOffReorders | frontend/src/services/websocket.ts:58-60 | when the callback was already registered, `on` then `off` removes the earlier registration, so the order of the list changes |
| WebSocket.EmitAfterOn | frontend/src/services/websocket.ts:52-68 | after `on(event, f)` an emit calls every earlier listener first and `f` last |
| WebSocket.EmitCounts | frontend/src/services/websocket.ts:65-70 | an emit calls nothing for an event without listeners, and otherwise calls each callback as often as it is registered |
| WebSocket.InvocationsCount | frontend/src/services/websocket.ts:68 | the invocations call each callback as often as it occurs in the list |
| AnalyticsRoutes.YearDay | backend/routes/analytics.py:151-152 | the calendar year of a day number is never before the starting year, and the day of that year lies within the year's length |
| AnalyticsRoutes.IsoWeekBounds | backend/routes/analytics.py:151-153 | every ISO week key has a year from 1970 on and a week number between 1 and 53 |
| AnalyticsRoutes.YearDaySameYear | backend/routes/analytics.py:151-152 | within one year the day of the year advances exactly with the date |
| AnalyticsRoutes.YearDayMonotone | backend/routes/analytics.py:151-152 | a later date never falls in an earlier year |
| AnalyticsRoutes.WeekKeyOrder | backend/routes/analytics.py:152-165 | a later Monday-to-Sunday week always has a larger key, so sorting the keys orders the weeks in time |
| AnalyticsRoutes.SameWeekSameKey | backend/routes/analytics.py:151-153 | two days share a week key exactly when they fall in the same Monday-to-Sunday week |
| AnalyticsRoutes.GetAnalyticsOverview | backend/routes/analytics.py:22-82 | the counting loops produce the overview of the rows read |
| AnalyticsRoutes.OverviewTotals | backend/routes/analytics.py:36-78 | every status but 'success' counts as failed, the success rate lies in 0..100 and is 0 without posts, and the conversion rate is 0 without clicks |
| AnalyticsRoutes.OverviewDaily | backend/routes/analytics.py:44-54 | the daily counters hold one entry per posting date that has posts, each total the sum of its successes and failures, adding up to the overall totals |
| AnalyticsRoutes.OverviewPlatforms | backend/routes/analytics.py:57-67 | the platform counters partition the posts the same way, one entry per platform of the rows |
| AnalyticsRoutes.Performances | backend/routes/analytics.py:96-113 | one entry per distinct property id of the rows |
| AnalyticsRoutes.GetPerformanceAnalytics | backend/routes/analytics.py:84-135 | the counting loop, the rate loop and the ranking produce the performance response of the rows read |
| AnalyticsRoutes.PerformancesCounts | backend/routes/analytics.py:96-120 | each entry counts exactly its property's rows and successes, posts = success + error > 0, and its rate lies in 0..100 |
| AnalyticsRoutes.PerformanceIds | backend/routes/analytics.py:96-113 | the property ids of the entries, in order |
| AnalyticsRoutes.PerformanceIdsDistinct | backend/routes/analytics.py:96-131 | the entries' property ids are distinct and are exactly those of the rows |
| AnalyticsRoutes.RateSumBounds | backend/routes/analytics.py:132 | the sum of n rates in 0..100 lies in 0..100n |
| AnalyticsRoutes.PerformanceTop | backend/routes/analytics.py:123-127 | exactly min(10, properties) top performers, in non-increasing rate order, each an entry of the list, and none left out has a higher rate than one shown |
| AnalyticsRoutes.AverageRateBounds | backend/routes/analytics.py:132 | the mean of rates in 0..100 lies in 0..100 and is 0 for no properties |
| AnalyticsRoutes.PerformanceAverage | backend/routes/analytics.py:129-133 | the property count is the number of entries, and the average rate is 0 without properties and lies in 0..100 |
| AnalyticsRoutes.Changes | backend/routes/analytics.py:166-178 | one change entry per pair of consecutive weeks |
| AnalyticsRoutes.GetTrendAnalytics | backend/routes/analytics.py:137-186 | the weekly loop and the growth loop produce the trends response of the rows read |
| AnalyticsRoutes.GrowthRatesSnoc | backend/routes/analytics.py:167-178 | one more week adds exactly its growth step |
| AnalyticsRoutes.GrowthRatesAllWeeks | backend/routes/analytics.py:167-178 | when every week has posts the loop skips no week and yields one change per pair of consecutive weeks |
| AnalyticsRoutes.TrendsWeekMembers | backend/routes/analytics.py:148-165 | the sorted week keys are exactly the weeks of the rows |
| AnalyticsRoutes.TrendsWeeksSorted | backend/routes/analytics.py:165 | the week keys are in strictly increasing calendar order, each once |
| AnalyticsRoutes.TrendsWeeksPosted | backend/routes/analytics.py:148-162 | every listed week has posts |
| AnalyticsRoutes.TrendsGrowth | backend/routes/analytics.py:165-183 | every week after the first has its growth entry against the previous week, so no division by zero occurs, and the average is 0 without entries |
| AnalyticsRoutes.SortedDistinct | backend/routes/analytics.py:165 | a sorted permutation of distinct week keys has strictly increasing ranks |
| AnalyticsRoutes.WeekRankInjective | backend/routes/analytics.py:153-165 | week keys with two-digit week numbers are told apart by their sort rank |
| AnalyticsRoutes.CsvFields | backend/routes/analytics.py:209 | a CSV line has exactly six values |
| AnalyticsRoutes.ExportAnalytics | backend/routes/analytics.py:188-217 | 'json' returns the rows, 'csv' the header followed by one line per row built in the loop, and any other format is refused |
| AnalyticsRoutes.CsvLines | backend/routes/analytics.py:208-209 | one line per row |
| AnalyticsRoutes.CsvOfJoin | backend/routes/analytics.py:207-209 | the CSV text is the header and the row lines joined by newlines, with a final newline |
| AnalyticsRoutes.CsvSplitsIntoLines | backend/routes/analytics.py:207-209 | when no value holds a newline, splitting the text on newlines gives the header, one line per row in order, and a final empty piece |
| AnalyticsRoutes.CsvLineFields | backend/routes/analytics.py:209 | a line splits on commas back into its six values when none of them holds a comma |
| AnalyticsRoutes.CsvCommaShiftsColumns | backend/routes/analytics.py:209 | the values are written unquoted, so a comma in an error message gives the line more than six columns |
| DashboardRoutes.StatsCounts | backend/routes/dashboard.py:30-46 | successful and failed posts are counted apart, never exceed the posts together, and add up to them exactly when no post has another status; the error count is the failed count |
| DashboardRoutes.StatsRates | backend/routes/dashboard.py:47-49 | both rates are 0 without a denominator, the success rate lies in 0..100, and so does the conversion rate when conversions do not exceed clicks |
| DashboardRoutes.StatsActive | backend/routes/dashboard.py:26-37 | at most every property is active, and over the active rows the property list returns every property is |
| DashboardRoutes.PostActivities | backend/routes/dashboard.py:101-108 | one activity per post, in post order |
| DashboardRoutes.PropertyActivities | backend/routes/dashboard.py:111-118 | one activity per property, in property order |
| DashboardRoutes.GetRecentActivities | backend/routes/dashboard.py:88-126 | the two loops and the sort produce the feed of the rows read |
| DashboardRoutes.RecentComplete | backend/routes/dashboard.py:101-125 | at most ten post entries and five property entries go in, so the cut at twenty never drops one: every entry is returned, newest first, and the total is their number |
| DashboardRoutes.RecentKinds | backend/routes/dashboard.py:101-111 | exactly min(posts, 10) entries come from posts and min(properties, 5) from properties |
| DashboardRoutes.CollectedKinds | backend/routes/dashboard.py:101-118 | the collected entries hold min(posts, 10) post entries and min(properties, 5) property entries |
| DashboardRoutes.RecentStatuses | backend/routes/dashboard.py:101-118 | a post entry carries the status of one of the first ten posts; a property entry is always 'success' and names one of the first five properties |
| DashboardRoutes.CollectedMember | backend/routes/dashboard.py:101-118 | every collected entry comes from one of the first ten posts or one of the first five properties |
| NotificationRoutes.Notifications | backend/routes/notifications.py:36-56 | one notification per post, in post order |
| NotificationRoutes.GetNotifications | backend/routes/notifications.py:23-65 | the loop and the sort produce the notification list of the posts read |
| NotificationRoutes.NotificationKind | backend/routes/notifications.py:37-56 | a post gets a success notice exactly when its status is 'success'; the id is the matching prefix and the post id, and the notice is unread with the post's time and property |
| NotificationRoutes.NotificationIdsDistinct | backend/routes/notifications.py:39-48 | posts with different ids get different notification ids |
| NotificationRoutes.NotificationListProps | backend/routes/notifications.py:59-64 | the total counts every post and equals the unread count, and the list shown holds min(limit, total) notifications, newest first, each made from a post, with no notification left out newer than one shown |
| NotificationRoutes.Outcomes | backend/routes/notifications.py:110-119 | one success/error counter per key, in first-appearance order |
| NotificationRoutes.GetNotificationStats | backend/routes/notifications.py:97-127 | the counting loop produces the stats of the posts read |
| NotificationRoutes.StatsErrorCounts | backend/routes/notifications.py:106-119 | the per-platform errors add up to every post that did not succeed, which is at least the headline error count of 'failed' posts, and equal to it exactly when no post has another status |
| NotificationRoutes.OutcomeErrors | backend/routes/notifications.py:114-119 | with balanced counters the errors are the posts that did not succeed |
| NotificationRoutes.StatsRate | backend/routes/notifications.py:110-125 | the rate is 0 without posts and lies in 0..100; each platform of the posts appears exactly once |
| NotificationRoutes.GetAnalytics | backend/routes/notifications.py:160-199 | the day loop and the platform loop produce the summary of the posts read |
| NotificationRoutes.SummaryDaily | backend/routes/notifications.py:168-177 | one day entry per posting date, and the errors over all days are the posts that did not succeed |
| NotificationRoutes.SummaryPlatforms | backend/routes/notifications.py:180-196 | per platform, total = success + error, the totals add up to all posts, and the rate is 0 without posts and lies in 0..100 |
| PropertyRoutes.FilteredMembers | backend/routes/properties.py:37-54 | a property is listed exactly when it is stored and passes every given filter: the city ignoring case, the active flag for 'active' or 'inactive', and the search text in the title, city or description ignoring case |
| PropertyRoutes.FilteredSubseq | backend/routes/properties.py:37-54 | the filters keep the stored order |
| PropertyRoutes.UnknownStatusIgnored | backend/routes/properties.py:41-45 | a status other than 'active' and 'inactive' filters nothing |
| PropertyRoutes.PageStart | backend/routes/properties.py:58 | the page starts at (page - 1) * limit |
| PropertyRoutes.PageSlice | backend/routes/properties.py:23-68 | for a page of at least 1 and a limit of 1..100 the total is the number of filtered properties, the page holds at most `limit` of them, it is the slice starting at (page - 1) * limit, and it is empty exactly when that start is past the end |
| PropertyRoutes.PagesCeiling | backend/routes/properties.py:68 | the page count is the ceiling of total over limit: enough pages for every property, no empty last page, and none for no properties |
| PropertyRoutes.PageNonEmpty | backend/routes/properties.py:57-68 | a page holds properties exactly when its number is at most the page count |
| PropertyRoutes.PageStartInRange | backend/routes/properties.py:58-68 | a page starts before the end exactly when its number is at most the ceiling page count |
| PropertyRoutes.InactiveNeverListed | backend/routes/properties.py:33-45 | the property list reads only active rows, so the 'inactive' filter always yields an empty page and a total of 0 |
| PropertyRoutes.InactiveFilteredEmpty | backend/routes/properties.py:44-45 | over active rows the 'inactive' filter keeps nothing |
| PropertyRoutes.LexIrreflexive | backend/routes/properties.py:145 | the string order never puts a city before itself |
| PropertyRoutes.LexTotal | backend/routes/properties.py:145 | of two different cities one sorts before the other |
| PropertyRoutes.LexTransitive | backend/routes/properties.py:145 | the string order is transitive |
| PropertyRoutes.InsertCityProps | backend/routes/properties.py:144-145 | inserting a city into a strictly sorted list keeps it strictly sorted and adds exactly that city |
| PropertyRoutes.CitiesListProps | backend/routes/properties.py:138-147 | the cities list is strictly sorted, so each city occurs once, and holds exactly the non-empty cities of the properties |
| PropertyRoutes.SortedUnique | backend/routes/properties.py:144-145 | two strictly sorted lists with the same members are equal, so the cities list is determined by its members |
| PropertyRoutes.NotHeadAfter | backend/routes/properties.py:145 | in a strictly sorted list the head does not occur again |
| PropertyRoutes.CityCounts | backend/routes/properties.py:157-164 | one total/active counter per city, in first-appearance order |
| PropertyRoutes.GetPropertiesSummary | backend/routes/properties.py:149-193 | the city loop and the price loop produce the summary of the properties read |
| PropertyRoutes.BucketStep | backend/routes/properties.py:167-183 | one more property adds one to exactly the counter of its price range |
| PropertyRoutes.SummaryCounts | backend/routes/properties.py:154-188 | the four price ranges add up to the total, and the inactive count is the total less the active count and never negative |
| PropertyRoutes.SummaryCities | backend/routes/properties.py:157-188 | each city of the properties has exactly one entry and no other city does; its total counts its properties and is positive, its active count counts its active properties and never exceeds the total |
| PropertyRoutes.ToggleProperty | backend/routes/properties.py:91-115 | the answer is computed from the stored row of that id, and nothing is written back |
| PropertyRoutes.ToggleProps | backend/routes/properties.py:98-110 | a missing id is not found; otherwise the answer carries the negated flag, the id, and the activated or deactivated message matching the new flag |

## Left out

- SQLite plumbing: connections, `CREATE TABLE`, JSON encoding of columns and the string comparison of `datetime('now', ...)` against `isoformat()` text. Tables are sequences, time is an integer clock and payloads are JSON values.
- The `schedules` table (src/database.py:104-112) is created but no core operation reads or writes it, so it has no state in the model.
- The `schedule` library: its `run_pending` loop, next-run computation and the behaviour of `.at` and `.month`. Whether `.at` accepts a time and whether a monthly period exists are parameters of `Start` and `AddCustomSchedule`.
- Threading in the scheduler (`threading.Thread`, `time.sleep`, `join`), which has no observable effect on the flag or the registry.
- The job bodies `_run_daily_data_collection`, `_run_content_generation`, `_run_analytics_report`, `_run_data_cleanup` and `_run_monthly_report`: orchestration glue that calls operations modelled here. Report file writing (`_save_analytics_report`, `_save_monthly_report`) is I/O.
- `get_scheduled_jobs`: a `str`/`isoformat` rendering of the library's job objects.
- OpenAI caption generation and the fallback template choice: the caption and the other long texts are inputs of `Content.CreatePropertyContent`.
- PIL image drawing and saving: whether each image was saved is an input.
- The Instagram, Google and Selenium clients and their simulated uploads: each client's presence and the login outcome are inputs.
- The texts a sub-result echoes back (`caption`, `text`, `script`, `title`) are not kept in `PostResult`: no core operation reads them.
- `schedule_post` and `get_posting_analytics` of `SocialMediaManager` (src/social_media_manager.py:319-363), which return simulated or random values.
- FastAPI routing, query validation messages, `HTTPException` texts and the WebSocket endpoints. A refused query is the `InvalidQuery`/`BadFormat` result and a missing property is `NotFound`.
- `get_property`, `delete_property`, `mark_notification_read`, `mark_all_notifications_read`, the settings endpoints and the system start/stop/status endpoints of the routes: constant responses, not aggregation.
- Floating-point presentation: `round`, `toFixed`, `Intl` and locale formatting (`formatDate`, `formatNumber`, `formatCurrency`, `formatPercentage`). `formatDate` is the input `dateText` of `FrontendUtils.FormatRelativeTime`.
- `storage`, `debounce` and `throttle` in the frontend utilities, and the socket.io connection itself. The socket's events reach the model through `WebSocketService.Receive`.
- Latitude and longitude are kept as given. The scraper's random coordinate offsets and other mock fields are drawn values.
- AnalyticsRoutes.DayOf: a date key `posted_at[:10]` is the day number of the clock, and the CSV's `posted_at` text is the parameter `stamp`. Both stand for the ISO text the SQL rows hold.
- AnalyticsRoutes.TrendsWeeksSorted: week keys are ordered by year, then week number. This agrees with Python's sort of the `YYYY-Www` texts for four-digit years.
- AnalyticsRoutes.ExportAnalytics: a missing `error_message` is rendered as the empty string rather than Python's `None`.
- FrontendUtils.StatusCaseInsensitive: lower-casing covers ASCII letters only, which includes every status the tables list.
- Scraper.SearchProps: keyword matching lower-cases ASCII letters only, and the Korean city names have no case.
- PropertyRoutes.FilteredMembers: the city and search filters lower-case ASCII letters only, where Python's `.lower()` folds every cased Unicode letter. A filter such as `city="ÅRE"` matches a stored `"åre"` in the source but not in the model; Korean text has no case, so Korean city names and titles behave the same in both.
- Social.PostToAllPlatforms: a publish reads one `clock` value for every sub-post id and URL, where the source calls `int(time.time())` afresh after each sub-post's simulated sleep, so the source's stamps can differ between sub-posts and between a YouTube id and its URL.
- Scheduler.RunScheduledPosting: one `now` stamps every history row and every `posted_at` of a cycle (also in `Scheduler.RunScheduledPostingCorrected`), where the source calls `datetime.now()` for each write (src/database.py:329, src/database.py:355) with simulated sleeps in between, so the source's stamps within one cycle can differ.
- WebSocket.WebSocketService.Connect: the model holds one socket. When `connect()` runs while a socket exists but is not yet connected, the source creates a second socket without disconnecting the first, whose handlers still re-emit to the service's listeners. A late 'connect' or 'notification' from that orphaned socket then reaches the `connected`/`notification` listeners while `isConnected()` reads the new, unconnected socket as false; the model's `Receive` always speaks for the current socket, so this split state is not captured.
- main.py's own `run_scheduled_posting` variant and the launch scripts are not part of this model.

## Findings

| source | as written | input that shows it | evidently intended | confidence | as-written member | corrected member |
|---|---|---|---|---|---|---|
| src/scheduler.py:169-183 with src/database.py:214-225 | the cycle hands `post_to_all_platforms` the stored `content_data`. That is one platform's dict (caption, hashtags, ...), since each content row stores a single platform entry. It has no `platforms` key, so the publish selects no platform, no history row is written, and the item is still marked posted | a pending Instagram row saved by `save_property_data`, whose `content_data` is `{'caption': ..., 'hashtags': ...}` | publish the row to its own platform (`{'platforms': {content_type: content_data}}`) and record one history row for it | not executed | Scheduler.CycleWritesNothing | Scheduler.CorrectedCycleRecordsOne |
