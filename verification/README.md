# YouTube Playlist Monitor: the backend job, modelled in Dafny

The backend job (`backend/save_data.py`) runs once a day. It records how many videos a
YouTube playlist holds and their total running time. It then derives the chart series
and the trend figures that the dashboard shows.

This project models the core of that job:

- **Duration parsing** (`duration.dfy`, module `Duration`). The platform's ISO 8601
  duration strings (`PT1H30M`) become whole minutes.
  - The regular expression is modelled as the left-to-right scan it amounts to.
  - `Format` renders components in the same designator format. It is a right inverse of
    the scan: the scan reads back every rendered duration, though not every matched
    string (`PT`, `P01D`, a trailing suffix) is a rendering.
- **The series view** (`series.dfy`, module `Series`). The stored daily points become the
  full chart series and its last-28-days slice.
- **Trend statistics** (`changes.dfy`, module `Changes`). These are the day-to-day changes
  summed over the week, month and whole-series windows, the point differences, the
  up/down/steady indicator, and the hours/minutes split of the latest total.
- **The ingestion run** (`ingestion.dfy`, module `Ingestion`). It checks whether today's
  point is stored, authenticates, lists the playlist page by page, sums the durations in
  batches of 50, writes the point with a merge, and reports the outcome in the status
  document.
- **The two external services** are classes whose methods update their state in place:
  - the document store, `Store.Firestore`: the `playlist_data` collection and the
    `status/playlist_status` document, written with merges;
  - the video platform, `Source.YouTube`, which records every request it receives.

  Whether a call raises is fixed for a run by the services' fault constants. Today's
  date and the status timestamp are parameters of the run.

## Model

| member | source | states |
|---|---|---|
| Duration.MatchDuration | backend/save_data.py:197-201 | The pattern matches exactly when the string starts with `P`. A match never ends before the `P` or past the string. |
| Duration.MatchGroup | backend/save_data.py:197 | An optional group `(?:(\d+)L)?` stays within the string. It consumes nothing exactly when it captures nothing. A capture ends with the letter and consumes at least one character before it. |
| Duration.GroupCapture | backend/save_data.py:197-206 | The group captures exactly when the greedy digit run at the position is non-empty and followed by the letter. It then consumes the run and the letter, and captures the run's `int()` value. |
| Duration.ScanElements | backend/save_data.py:197 | Scanning the pattern's elements yields one capture per element, and it ends within the string. |
| Duration.ParseDurationToMinutes | backend/save_data.py:195-210 | Parsing fails exactly when the string does not start with `P`, and it fails with the message "Formato de duração inválido.". |
| Duration.FormatRoundTrip | backend/save_data.py:197-206 | The regex reads back exactly the days, hours, minutes and seconds of any rendered `P[nD][T[nH][nM][nS]]` duration, each one present or absent, and it consumes the whole string. |
| Duration.ParseFormatted | backend/save_data.py:203-209 | A rendered duration parses to days*1440 + hours*60 + minutes + seconds div 60, with absent components counting as 0. |
| Duration.TrailingTextIgnored | backend/save_data.py:198 | The match is anchored only at the start: cutting the text after the matched prefix changes neither the match nor the minutes. |
| Duration.GroupsRoundTrip | backend/save_data.py:197 | The optional `(\d+)X` groups, applied in order to rendered parts, capture each part's number or nothing, and they end after the last part. |
| Duration.TimeRoundTrip | backend/save_data.py:197 | The H, M and S groups read back the hours, minutes and seconds of a rendered time part. |
| Duration.ScanOnPrefix | backend/save_data.py:197-198 | Scanning the matched prefix alone gives the same captures and the same end as scanning the whole string. |
| Duration.NumberAtShift | backend/save_data.py:203-206 | `int()` of a digit run depends only on its digits, not on where they sit. |
| Duration.DigitRunStops | backend/save_data.py:197 | `\d+` is greedy: the run is all digits and is followed by a non-digit or the end. |
| Duration.ExampleHourAndHalf | backend/save_data.py:195-210 | `PT1H30M` is 90 minutes. |
| Duration.ExampleOneDay | backend/save_data.py:195-210 | `P1D` is 1440 minutes. |
| Duration.ExampleSecondsBelowMinute | backend/save_data.py:209 | Seconds are floored to whole minutes: `PT45S` is 0. |
| Duration.ExampleSecondsAboveMinute | backend/save_data.py:209 | `PT90S` is 1 minute. |
| Duration.QuirkBareP | backend/save_data.py:197-201 | A bare `P` matches and is 0 minutes, not an error. |
| Duration.QuirkBareT | backend/save_data.py:197-201 | `PT` matches and is 0 minutes, not an error. |
| Duration.QuirkMonthIsMinute | backend/save_data.py:197 | Without `T`, `P1M` is read as one minute, not the ISO 8601 month. |
| Series.ParseData | backend/save_data.py:242-259 | The full view has one `{x: date, y: value}` point per stored day, in input order, for both series. The month view is the last min(28, n) points of each. |
| Series.LastPoints | backend/save_data.py:254-255 | For k > 0, `ps[-k:]` holds min(k, n) points and is a suffix of ps. Only k = 28 is ever passed. |
| Series.ShortSeriesMonthIsFull | backend/save_data.py:253-256 | With at most 28 days, the month view is the full view. |
| Series.MonthViewIsLastDays | backend/save_data.py:254-255 | The k-th point of the month view is day n-28+k of the input. |
| Series.FullViewValues | backend/save_data.py:245-246 | The y values read back from the full view are the stored counts and minutes, in order. |
| Series.Ys | backend/save_data.py:413-414 | `[pt["y"] for pt in points]` keeps the length and takes each point's y. |
| Changes.CalculateChanges | backend/save_data.py:263-334 | An empty series gives the empty report and any other series a full one. Added sums are never negative and removed sums never positive. |
| Changes.AddedSum | backend/save_data.py:275 | The sum of the positive changes is at least 0. |
| Changes.RemovedSum | backend/save_data.py:276 | The sum of the negative changes is at most 0. |
| Changes.SplitSums | backend/save_data.py:275-292 | The sum, the added sum and the removed sum each split over concatenation. |
| Changes.AddedPlusRemoved | backend/save_data.py:275-292 | Every change is added or removed, so the two sums together are the net change. |
| Changes.ReverseSums | backend/save_data.py:271-292 | Newest-first order, as the week and month windows use it, does not change any sum. |
| Changes.SuffixChanges | backend/save_data.py:287-290 | The changes of a suffix of the series are the matching suffix of its changes. |
| Changes.Telescope | backend/save_data.py:287-290 | The day-to-day changes sum to the last value minus the first. |
| Changes.RecentIsReversedSuffix | backend/save_data.py:271-282 | A recent window is the last min(w, n) - 1 total changes, newest first. |
| Changes.RecentNet | backend/save_data.py:271-282 | A recent window's changes sum to the last value minus the window's first value. |
| Changes.RecentPrefix | backend/save_data.py:271-282 | The week window is a prefix of the month window. |
| Changes.PrefixSums | backend/save_data.py:275-292 | Extending a change list never decreases the added sum and never increases the removed sum. |
| Changes.TotalSumsTelescope | backend/save_data.py:287-298 | total_added + total_removed == total_difference. |
| Changes.WindowNet | backend/save_data.py:271-284 | A window's added + removed equals the last value minus the window's first value. |
| Changes.WindowSumsNet | backend/save_data.py:271-297 | last_week_added + last_week_removed equals values[-1] - values[-min(7, n)], and the month window likewise with 28. Past 7 (28) values this is last_week_difference (last_month_difference). |
| Changes.WindowsNested | backend/save_data.py:271-292 | week added <= month added <= total added, and week removed >= month removed >= total removed. |
| Changes.WindowLengths | backend/save_data.py:271-290 | The windows hold min(7, n) - 1, min(28, n) - 1 and n - 1 changes. |
| Changes.ChangeIndicator | backend/save_data.py:336-345 | The indicator is one of "", ↑, ↓ and ●. |
| Changes.IndicatorFollowsDayDifference | backend/save_data.py:336-345 | The indicator is "" exactly for a single value. Otherwise it is ↑, ↓ or ● exactly when last_day_difference is positive, negative or zero. |
| Changes.ExampleSeries | backend/save_data.py:263-345 | For [1, 2, 2, 5]: day difference 3, total difference 4, total added 4, total removed 0, indicator ↑. |
| Changes.PointDifferences | backend/save_data.py:295-297 | last_day_difference is 0 for a single value and otherwise values[-1] - values[-2], the newest change of the week window. last_week_difference (last_month_difference) is 0 up to 7 (28) values and values[-1] - values[-7] (values[-28]) past that. |
| Changes.ShortSeriesDifferences | backend/save_data.py:271-296 | With 2 to 7 values, last_week_difference is 0 while last_week_added + last_week_removed is values[-1] - values[0]. |
| Changes.QuirkSevenValues | backend/save_data.py:271-296 | For 0, 1, …, 6: last_week_difference is 0, yet the week window added 6 and removed 0. |
| Changes.RemovedOfPositive | backend/save_data.py:276 | A change list with no negative change has a removed sum of 0. |
| Changes.ExampleSingleValue | backend/save_data.py:295-345 | For a single value, both differences are 0 and the indicator is "". |
| Changes.SplitHours | backend/save_data.py:425 | `divmod(m, 60)` gives hours*60 + minutes == m with 0 <= minutes < 60. |
| Changes.CalcSummary | backend/save_data.py:410-428 | Both change reports are full. current_videos is the last video count, and current_hours*60 + current_minutes is the last total minutes, with 0 <= current_minutes < 60. |
| Store.Merge | backend/save_data.py:83-108 | `set(..., merge=True)` keeps every old field, adds the written ones, and the written values win. |
| Store.MergedDayReadsBack | backend/save_data.py:82-86 | After a merge write, the day reads back the written fields and keeps its other fields. Every other day is untouched. |
| Store.Firestore.DayExists | backend/save_data.py:132-134 | The lookup fails with the read fault, or says whether a document for the date exists. |
| Store.Firestore.MergeDay | backend/save_data.py:82-86 | A `playlist_data` write merges into that day's document, or leaves the store unchanged when it raises. The status document never changes. |
| Store.Firestore.MergeStatus | backend/save_data.py:103-108 | A status write merges into `status/playlist_status`, or leaves it unchanged when it raises. `playlist_data` never changes. |
| Source.FoundAppend | backend/save_data.py:177-183 | Looking up the durations of two id runs is looking up their concatenation. |
| Source.YouTube.Build | backend/save_data.py:149 | `build` is recorded and fails with the build fault, or passes. |
| Source.YouTube.constructor | backend/save_data.py:161-170 | A playlist has at least one listing response, because the first request always runs. |
| Source.YouTube.ListPlaylistItems | backend/save_data.py:161-170 | Each listing request is recorded and returns that page's video ids, or the exception that page raises. |
| Source.YouTube.ListVideos | backend/save_data.py:177-181 | Each `videos().list` request is recorded and returns the durations of the ids the platform knows, in request order, or the request's exception. |
| Ingestion.StatusWriteTouchesOnly | backend/save_data.py:97-108 | upload_status sets the title, its `_timestamp` and `success`. Every other status field is unchanged. |
| Ingestion.UploadStatus | backend/save_data.py:93-112 | The status document is merged with those three fields, or unchanged when the write raises. `playlist_data` never changes. |
| Ingestion.UploadData | backend/save_data.py:78-91 | On success today's document is merged with `video_count` and `total_minutes`, and the "saved" message is returned. On a failed write nothing is returned and nothing changes. No status is written either way. |
| Ingestion.CheckData | backend/save_data.py:129-143 | The run proceeds only when the read succeeds and today has no document. An existing document reports "already saved" with success. A failed read reports the error with failure. |
| Ingestion.AuthenticateYouTube | backend/save_data.py:145-155 | Authentication succeeds exactly when `build` does. A failure writes the authentication error to the status. |
| Ingestion.PagesRead | backend/save_data.py:166-170 | The listing requests are at most the pages, and all of them when the listing succeeds. |
| Ingestion.PlaylistIdsFailurePersists | backend/save_data.py:167-191 | Once a listing page raises, the whole listing fails with that page's exception, and no later page is requested. |
| Ingestion.ListVideoIds | backend/save_data.py:166-170 | The listing loop returns every page's ids in page order, or the first page's exception. It requests the pages in order, up to and including the first one that raises. |
| Ingestion.Plus | backend/save_data.py:184 | `total += minutes` is Ok exactly when both sides are, and then it holds their sum. Otherwise it propagates the earlier failure. |
| Ingestion.PlusAssociative | backend/save_data.py:184 | Adding to the running total is associative, failures included. |
| Ingestion.SumMinutesSnoc | backend/save_data.py:182-184 | One more duration adds its minutes to the sum. |
| Ingestion.SumMinutesAppend | backend/save_data.py:176-184 | Summing two runs of durations one after the other adds their sums, so batching does not change the total. |
| Ingestion.SumMinutesFailure | backend/save_data.py:184-201 | The total fails exactly when some duration does not start with `P`, and then with the parser's message. |
| Ingestion.SumDurations | backend/save_data.py:182-184 | The inner loop's total is the sum of the response's durations in minutes, or the first parse failure. |
| Ingestion.BatchesPrefix | backend/save_data.py:176-179 | The first k batches together are the first min(50k, n) ids. |
| Ingestion.BatchesPartition | backend/save_data.py:176-179 | `video_ids[i:i + 50]` for i in steps of 50 covers the ids exactly, in order, with 1 to 50 ids per batch. |
| Ingestion.BatchCallsStep | backend/save_data.py:176-181 | One more batch adds one `videos().list` request for that batch. |
| Ingestion.BatchStep | backend/save_data.py:176-183 | One more batch extends the covered prefix of the ids, and the found durations grow accordingly. |
| Ingestion.FoundFailurePersists | backend/save_data.py:184-191 | A parse failure among the durations of the first ids fails the whole sum. |
| Ingestion.BatchesFrom | backend/save_data.py:176-184 | From batch b on, the loop requests at least b and at most all batches. |
| Ingestion.BatchesRead | backend/save_data.py:176-184 | The loop never requests more batches than there are. |
| Ingestion.BatchSum | backend/save_data.py:176-184 | After one more batch, the running total is the sum over all ids covered so far, or else the whole sum fails the same way. The loop stops after this batch exactly when its sum fails. |
| Ingestion.BatchesFromPrefix | backend/save_data.py:176-184 | While the ids covered so far sum, every earlier batch was summed, and the loop's requests from here on are the ones it makes from the start. |
| Ingestion.FetchedRequestsEverything | backend/save_data.py:166-184 | A fetch that yields counts has requested every listing page and every batch of 50, each once and in order. |
| Ingestion.FetchBatch | backend/save_data.py:177-184 | One batch makes one request. It yields the request's exception, or the sum of the returned durations. |
| Ingestion.SumBatchMinutes | backend/save_data.py:175-184 | The batch loop's total is the minutes of every found duration, or the request fault, or the first parse failure. It requests the batches in order. It stops after the first request when requests raise, and after the first batch with a malformed duration. A successful loop requests every batch. |
| Ingestion.GetData | backend/save_data.py:157-193 | get_data returns (count, minutes) as the listing and the durations dictate. Any failure is written to the status as the fetch error. Its requests are the listing requests up to the first failing page, then the batch requests up to the first failing batch. A successful fetch makes one listing request per page and one duration request per batch. |
| Ingestion.SaveCounts | backend/save_data.py:383-391 | Zero videos stops the run without a status. A failed data write stops it without a status. Otherwise the point is written and "saved" is reported with success. |
| Ingestion.GetAndSave | backend/save_data.py:382-391 | The outcome, `playlist_data` and the status document after fetching and saving. The requests are exactly those of the fetch, whatever the outcome. |
| Ingestion.FetchAndSave | backend/save_data.py:378-391 | The same, preceded by authentication. A failed build stops the run after the build request alone. Otherwise the build request is followed by the fetch's requests. |
| Ingestion.CollectAndSave | backend/save_data.py:369-391 | The run's outcome is decided by the read, build, fetch and write faults and by the playlist. `playlist_data` changes only by the merge of today's counts on a saved run. The status holds the outcome's report, if any. An already-stored or unreadable day makes no platform request. A failed build makes only the build request. Every other run makes the build request followed by the fetch's requests. |
| Ingestion.RunTwice | backend/save_data.py:369-375 | A second run on a day the first one saved stops at the check, changes no data and makes no platform request. |

## Left out

- **Average changes.** `last_week_average_change`, `last_month_average_change` and
  `total_average_change` (`round(sum / len, 2)`) are floating-point and are not modelled.
  For the same reason `minutes_per_video` (`round(total / count)`) is left out; it divides
  by zero when the latest count is 0.
- **Digits.** The regex's `\d` also matches non-ASCII Unicode digits. The model reads
  ASCII digits only.
- **Other steps of the job.** `fetch_data`, `upload_calc`, `parse_and_save_data`, `main`,
  `init`, `load_keys`, `set_environment`, `init_firestore` and `set_day` are not part of
  this model. Neither are the storing of the computed reports and the frontends.
- **Logging.** `message()` logging and its debug `sleep` are left out. The messages
  matter only as the texts written to the status document, and those are modelled.
- **Clock.** Today's date (`TODAY_STRING`) and the São Paulo timestamp are parameters,
  not read from a clock.
- **External failures.** Exceptions of the services are fixed per run by fault constants.
  A fault does not vary from one call to the next. An exception raised while handling a
  response (a missing key in the JSON) is folded into these faults.
- **Concurrency.** Two runs racing on the check step are not modelled.
- Duration.ParseDurationToMinutes: CPython's `int()` refuses a digit string of more than
  4300 digits with a ValueError. The model has no such limit: a group that long parses to
  its value instead of failing.
- Ingestion.SumMinutesFailure: for the same reason, a duration with a group of more than
  4300 digits fails the sum in the source but not in the model.
- **Where the code and the written description of the system differ, the model follows
  the code:**
  - A string with no component at all (`P`, `PT`) parses to 0 rather than failing.
  - The week window holds at most 6 changes, from `range(1, min(7, n))`.
  - The month window holds at most 27 changes, from `range(1, min(28, n))`, not min(28, n-1).
  - last_week_difference is 0 up to and including 7 values, although `values[-7]` exists at
    7; the week sums then still net `values[-1] - values[0]`.
  - A zero video count and a failed data write end the run without any status write.
