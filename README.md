# Backtest viewer core, modelled in Dafny

This project models the logic of a macOS viewer for trading backtests. The app's
logic covers:

- running the backtest tool and its helper commands through the shell, and tracking
  whether a backtest is running;
- watching a result folder, and its parent, for changes;
- merging a position's trades into the fetched price series, and finding the price
  closest to a date;
- zooming the chart's visible date range in and out, and resetting it;
- choosing a price bucket size from the zoom scale;
- reading positions from a CSV file;
- removing ANSI colour codes from process output, and trimming it;
- the error alert shared by the views;
- the settings screen that stores the four tool paths;
- the colours and number formats of the trade statistics;
- the release script that adds a release-notes link to each item of the Sparkle
  appcast.

There is one module for each source file:

| module | file |
|---|---|
| `Commands` | `command_service.dfy` |
| `FolderWatch` | `folder_watcher.dfy` |
| `PriceCharts` | `price_chart.dfy` |
| `PriceModel` | `price_data.dfy` |
| `DateRanges` | `closed_range.dfy` |
| `DateRangeExtension` | `extension.dfy` |
| `StringCleanup` | `string_ext.dfy` |
| `CsvParser` | `csv_parser.dfy` |
| `Alerts` | `alert_manager.dfy` |
| `GeneralSettings` | `general_settings.dfy` |
| `TradeStatsHelpers` | `trade_stats.dfy` |
| `Appcast` | `update_xml.dfy` |

Two modules are shared:

- `Wrappers` holds the optional value.
- `SwiftInt` holds Swift's `Int(String)` and the decimal rendering of string
  interpolation.

Classes whose methods update fields in place are Dafny classes:

- `CommandService`
- `FolderMonitor`
- `AlertManager`
- `GeneralSettingsView`
- `PriceChart`

Loops are methods with loop invariants. Each such method is proved against a function that specifies it:

- the merge loop of `fetchPriceData`, against `MergeUpTo`;
- the CSV row loop, against `RowToPosition`;
- the appcast item loop, against `PatchChildren`.

Dates are seconds as `real`. Swift's `Double` arithmetic is exact real arithmetic here.

The command service keeps one `isRunning` flag and makes three blocking calls.

## Model

| member | source | states |
|---|---|---|
| Commands.BridgedDescription | trading-analyzer/Services/CommandService.swift:10-13 | A `CommandError` caught as a plain `Error` is described by Foundation's generic, non-empty text. That text is made from the type and the case number only. |
| Commands.ExitFailureReason | trading-analyzer/Services/CommandService.swift:46-52 | The failure text starts with the tool name. When standard error is non-empty, the text ends in ": " followed by it. |
| Commands.ClassifyExit | trading-analyzer/Services/CommandService.swift:34-60 | A launch failure becomes `processFailed` carrying the launch error's description. A process that ran returns normally exactly when its status is 0. Otherwise it throws `commandFailed` with the `ExitFailureReason` of the tool, the status and the decoded standard error. |
| Commands.ExitFailureReasonShape | trading-analyzer/Services/CommandService.swift:46-52 | The failure text starts with the tool name and "command failed with exit code". Its code parses back to the exit status. It ends in `": " + stderr` exactly when standard error is non-empty. |
| Commands.UndecodableStderrIsEmpty | trading-analyzer/Services/CommandService.swift:39-40 | Standard error that is not valid UTF-8 counts as empty. |
| Commands.ConcatContains | trading-analyzer/Services/CommandService.swift:75-83 | Every part of a concatenated command line occurs in it. |
| Commands.BacktestCommandLine | trading-analyzer/Services/CommandService.swift:75-83 | The backtest command line starts with the executable and the `from-swap-parquet` subcommand. |
| Commands.SpeedupCommandLine | trading-analyzer/Services/CommandService.swift:132-138 | The speed-up command line starts with the executable and the `generate-speedup-helper-data-from-swap-parquet` subcommand. |
| Commands.BacktestCommandEmbedsPaths | trading-analyzer/Services/CommandService.swift:75-83 | The backtest command line starts with the executable and the `from-swap-parquet` subcommand. It contains each path after its own option: the result directory and the three patterns quoted, the helper data path bare. |
| Commands.SpeedupCommandEmbedsPaths | trading-analyzer/Services/CommandService.swift:132-138 | The speed-up command line starts with the executable and its subcommand. It contains the quoted output path and the quoted parquet pattern, both in the data directory. |
| Commands.BacktestCompletion | trading-analyzer/Services/CommandService.swift:96-124 | The backtest throws only `processFailed`. It throws exactly when the launch fails or standard error is non-empty. |
| Commands.BacktestIgnoresStatusAndErrorText | trading-analyzer/Services/CommandService.swift:107-120 | The exit status never changes the backtest's outcome. Neither does the text of a non-empty standard error. |
| Commands.BacktestConsole | trading-analyzer/Services/CommandService.swift:101-120 | A run that fails to launch prints nothing. |
| Commands.CommandService.constructor | trading-analyzer/Services/CommandService.swift:16-17 | A new service is not running. |
| Commands.CommandService.RunMakeCommand | trading-analyzer/Services/CommandService.swift:22-61 | Runs `/usr/bin/make -f <path>`. The outcome is `ClassifyExit` with the tool name "Make". |
| Commands.CommandService.RunBacktestCommand | trading-analyzer/Services/CommandService.swift:66-125 | Runs `/bin/bash -c <command line>`. Completion and console output are as specified by the two functions above. `isRunning` stays raised exactly when the call returns normally. |
| Commands.CommandService.RunGenerateSpeedupHelperDataCommand | trading-analyzer/Services/CommandService.swift:127-178 | Runs `/bin/bash -c <speed-up command line>`. It fails exactly as `ClassifyExit` says, with the speed-up tool name. |
| Commands.IsRunningAfterBacktest | trading-analyzer/Services/CommandService.swift:73-124 | After a backtest with empty standard error `isRunning` stays true. A backtest that then fails to launch lowers it. |
| FolderWatch.ChangedEvents | trading-analyzer/Models/FolderWatcher.swift:99-109 | There is one entry per watch still iterating. It is `true` only when that watch fired and the listing succeeded. Each `true` entry yields one `folderChanged`, and a `false` entry yields nothing. A watch left on a deleted folder never fires for a folder recreated at the same path, so its entry is `false`. |
| FolderWatch.FolderMonitor.constructor | trading-analyzer/Models/FolderWatcher.swift:12-20 | The monitor starts idle: no parent descriptor (-1), no monitors, no events. |
| FolderWatch.FolderMonitor.StartMonitoring | trading-analyzer/Models/FolderWatcher.swift:26-39 | The parent monitor is armed exactly when `open` succeeds. A target monitor starts exactly when the folder exists and can be opened. |
| FolderWatch.FolderMonitor.SetupParentMonitor | trading-analyzer/Models/FolderWatcher.swift:41-84 | The descriptor is the result of `open`. The monitor is armed unless that result is -1. |
| FolderWatch.FolderMonitor.SetupFolderMonitor | trading-analyzer/Models/FolderWatcher.swift:86-144 | A folder that is missing, or whose `open` fails, adds no monitor. Otherwise one more target monitor runs. |
| FolderWatch.FolderMonitor.ParentEvent | trading-analyzer/Models/FolderWatcher.swift:58-75 | When the folder exists, a parent event starts another target monitor (if the folder opens) and yields `folderRecreated`. Otherwise it yields `folderDeleted`. Nothing is yielded once the consumer has gone. |
| FolderWatch.FolderMonitor.TargetChange | trading-analyzer/Models/FolderWatcher.swift:93-112 | A change of the target folder appends `ChangedEvents`. After the consumer has gone it appends nothing. |
| FolderWatch.FolderMonitor.Yield | trading-analyzer/Models/FolderWatcher.swift:69-73 | A yield is appended only while the stream's consumer is alive. |
| FolderWatch.FolderMonitor.ConsumerTerminated | trading-analyzer/Models/FolderWatcher.swift:35-37 | When the stream ends, the monitors are cleaned up. |
| FolderWatch.FolderMonitor.CleanupMonitors | trading-analyzer/Models/FolderWatcher.swift:146-153 | The parent monitor is cancelled. An open descriptor is closed exactly once and reset to -1. |
| FolderWatch.FolderMonitor.StopMonitoring | trading-analyzer/Models/FolderWatcher.swift:155-160 | `task` is cleared and the parent monitor cleaned up. Target monitors and the stream are left running. |
| FolderWatch.StopKeepsTargetWatch | trading-analyzer/Models/FolderWatcher.swift:155-160 | After `stopMonitoring()` a change of the target folder still yields `folderChanged`. |
| FolderWatch.ParentEventsMultiplyChanges | trading-analyzer/Models/FolderWatcher.swift:64-69 | Each parent event adds a target monitor. After two such events there are three monitors, and one change yields three `folderChanged` after the two `folderRecreated`. |
| FolderWatch.CleanupClosesOnce | trading-analyzer/Models/FolderWatcher.swift:146-153 | Stopping twice and then ending the stream closes the parent descriptor once, and leaves it at -1. |
| FolderWatch.NothingToWatch | trading-analyzer/Models/FolderWatcher.swift:47-51 | When neither folder can be opened, the descriptor stays -1, nothing is armed, no target monitor runs and no event is yielded. |
| FolderWatch.SilentAfterTermination | trading-analyzer/Models/FolderWatcher.swift:35-37 | A deletion before the consumer goes is reported. A change after it goes is dropped, although the target monitor is still there. |
| PriceCharts.Distance | trading-analyzer/Views/Position/PriceChartView.swift:383 | The distance between a time and a date is the absolute value of their difference. |
| PriceCharts.ClosestPriceIndex | trading-analyzer/Views/Position/PriceChartView.swift:387-393 | The result is nil exactly for no prices. Otherwise it is an index whose time is nearest the date, and the first such index. |
| PriceCharts.ClosestEntryIndex | trading-analyzer/Views/Position/PriceChartView.swift:376-385 | The result is nil exactly for no entries. When the first entry is a trade the result is 0, because the comparator is false for trades. Otherwise the result is a price, the nearest to the date among the prices, and the first such price. |
| PriceCharts.PricesAppend | trading-analyzer/Views/Position/PriceChartView.swift:274-295 | The prices of a concatenation are the prices of its parts, in order. |
| PriceCharts.TradesAppend | trading-analyzer/Views/Position/PriceChartView.swift:274-295 | The trades of a concatenation are the trades of its parts, in order. |
| PriceCharts.TradeIndexes | trading-analyzer/Views/Position/PriceChartView.swift:270-272 | The index of each trade is the closest price index of its confirmation time. |
| PriceCharts.Advance | trading-analyzer/Views/Position/PriceChartView.swift:282-288 | The inner loop stops at the first trade not matched to this price. Every trade it passes was matched to it. |
| PriceCharts.MergeStep | trading-analyzer/Views/Position/PriceChartView.swift:277-292 | One round appends the trades in line that were matched to this price, then the price. |
| PriceCharts.MergeProjections | trading-analyzer/Views/Position/PriceChartView.swift:274-295 | After n prices the merged list holds exactly `data[..n]` as its prices and `trades[..k]` as its trades, and its length is n + k. |
| PriceCharts.MergeInOrder | trading-analyzer/Views/Position/PriceChartView.swift:274-295 | The emitted trades have indexes below n, in non-decreasing order. |
| PriceCharts.MergePositions | trading-analyzer/Views/Position/PriceChartView.swift:274-295 | Trade i sits at position i + index(i), preceded by exactly the prices before its matched price. Its matched price is the next price after it. |
| PriceCharts.MergeEmitsAllWhenInOrder | trading-analyzer/Views/Position/PriceChartView.swift:277-286 | When the indexes are in order, the loop emits every trade matched to a price seen so far, and no other. |
| PriceCharts.MergedProperties | trading-analyzer/Views/Position/PriceChartView.swift:263-296 | The merged list's prices are the fetched data, in order. Its trades are a prefix of the trades. It is empty for no data. With in-order indexes it holds every trade. |
| PriceCharts.MergeDropsOutOfOrderTrade | trading-analyzer/Views/Position/PriceChartView.swift:280-288 | With two prices and two trades matched to price 1 and then to price 0, only the first trade is emitted, just before price 1. The second is dropped. |
| PriceCharts.FirstPriceTime | trading-analyzer/Views/Position/PriceChartView.swift:339 | The time of the first price in the list, or nil when the list has no price. |
| PriceCharts.LastPriceTime | trading-analyzer/Views/Position/PriceChartView.swift:340 | The time of the last price in the list, or nil when the list has no price. |
| PriceCharts.ResetZoomSpansFetchedData | trading-analyzer/Views/Position/PriceChartView.swift:337-348 | After fetching non-empty data, reset spans from the first fetched price to the last. |
| PriceCharts.MergeTrades | trading-analyzer/Views/Position/PriceChartView.swift:273-295 | The loop computes exactly `MergeUpTo` over all prices. |
| PriceCharts.PriceChart.constructor | trading-analyzer/Views/Position/PriceChartView.swift:7-17 | A new chart holds its trades and has no range, no entries and scale 1. |
| PriceCharts.PriceChart.VisibleRange | trading-analyzer/Views/Position/PriceChartView.swift:23-33 | The range is nil exactly without a date range or without entries. Otherwise it is the two closest indexes of the bounds, smaller first, within the entries. |
| PriceCharts.PriceChart.FetchPriceData | trading-analyzer/Views/Position/PriceChartView.swift:263-296 | The bucket size follows the scale. The entries become the merge of the data with the chart's trades. Scale and range are unchanged. |
| PriceCharts.PriceChart.ResetZoom | trading-analyzer/Views/Position/PriceChartView.swift:337-348 | The range spans the first price to the last. It is cleared for no entries and kept when there are entries but no price. The call requires a first price no later than the last, where Swift's `...` would trap. |
| PriceCharts.PriceChart.ZoomIn | trading-analyzer/Views/Position/PriceChartView.swift:353-357 | Without a range, or below scale 1, nothing changes. Otherwise scale and range shrink by 0.8, and the new range lies inside the old one. |
| PriceCharts.PriceChart.ZoomOut | trading-analyzer/Views/Position/PriceChartView.swift:362-366 | Without a range, or from scale 60, nothing changes. Otherwise scale and range grow by 1.2, and the new range covers the old one. |
| PriceModel.PriceOrTrade.PriceValue | trading-analyzer/Models/PriceData.swift:13-20 | `price` is non-nil exactly for a price entry. |
| PriceModel.PriceOrTrade.TradeValue | trading-analyzer/Models/PriceData.swift:22-29 | `trade` is non-nil exactly for a trade entry. |
| PriceModel.PriceOrTrade.Time | trading-analyzer/Models/PriceData.swift:31-38 | The time is the trade's confirmation time or the price's bucket time. |
| PriceModel.AccessorsPartition | trading-analyzer/Models/PriceData.swift:13-29 | Exactly one accessor is non-nil, and it rebuilds the entry. |
| PriceModel.PriceDataInterval.DisplayName | trading-analyzer/Models/PriceData.swift:55-64 | Each display name has two characters and starts with "1". |
| PriceModel.PriceDataInterval.Sql | trading-analyzer/Models/PriceData.swift:86-96 | The SQL unit is one of second, minute and hour. |
| PriceModel.PriceDataInterval.NeedsCustomGrouping | trading-analyzer/Models/PriceData.swift:99-104 | No interval needs custom grouping. |
| PriceModel.PriceDataInterval.SecondsMultiplier | trading-analyzer/Models/PriceData.swift:106-111 | Every multiplier is 1. |
| PriceModel.InitFromScale | trading-analyzer/Models/PriceData.swift:66-74 | Below scale 10 the interval is one second. From 10 to below 40 it is one minute. From 40 on it is one hour. |
| PriceModel.InitFromDataCount | trading-analyzer/Models/PriceData.swift:76-84 | Below 360 points the interval is one second. From 360 to below 21600 it is one minute. From 21600 on it is one hour. |
| PriceModel.InitFromScaleMonotone | trading-analyzer/Models/PriceData.swift:66-74 | A larger scale never gives a finer interval. |
| PriceModel.InitFromDataCountMonotone | trading-analyzer/Models/PriceData.swift:76-84 | More data never gives a finer interval. |
| PriceModel.IntervalNamesDistinct | trading-analyzer/Models/PriceData.swift:50-96 | Display names, SQL units and raw values each identify the interval. There are three intervals. |
| DateRanges.ScaledBounds | trading-analyzer/Extensions/ClosedRange.swift:11-21 | The scaled bounds have the width times the factor, and the same midpoint. |
| DateRanges.Scale | trading-analyzer/Extensions/ClosedRange.swift:11-21 | `scale(to:)` keeps the midpoint and multiplies the width by the factor. |
| DateRanges.ScaleDefinedIff | trading-analyzer/Extensions/ClosedRange.swift:20 | The `...` does not trap exactly when the factor is non-negative or the range is a single instant. |
| DateRanges.ScaleIdentity | trading-analyzer/Extensions/ClosedRange.swift:11-21 | Scaling by 1 returns the range. |
| DateRanges.ScaledEnds | trading-analyzer/Extensions/ClosedRange.swift:17-18 | Each end moves inward by half the lost width. |
| DateRanges.ScaleNested | trading-analyzer/Extensions/ClosedRange.swift:11-21 | A factor in [0, 1] gives a range inside the original. |
| DateRanges.ScaleContains | trading-analyzer/Extensions/ClosedRange.swift:11-21 | A factor of at least 1 gives a range covering the original. |
| DateRanges.ZoomTestWidths | trading-analyzer/Extensions/ClosedRange.swift:11-21 | A one-minute range scaled by 0.8 is 48 s wide, and scaled by 1.2 it is 72 s wide. |
| DateRanges.SuggestScale | trading-analyzer/Extensions/ClosedRange.swift:23-34 | The suggestion times 1800 is the range's width in seconds, and it is never negative. |
| DateRangeExtension.DuplicateScale | trading-analyzer/Extensions/Extension.swift:10-20 | The second copy of `scale(to:)` agrees with the first on every range and factor. |
| DateRangeExtension.DuplicateScaleEdges | trading-analyzer/Extensions/Extension.swift:10-20 | Scaling by 1 returns the range. A negative factor traps unless the range is one instant. |
| StringCleanup.SgrLength | trading-analyzer/Extensions/String.swift:10 | The match at the front is ESC `[`, one or more of `0-9;`, then `m`. When the text does not start with ESC there is no match. |
| StringCleanup.RemoveANSIColorCodes | trading-analyzer/Extensions/String.swift:6-19 | The result is never longer than the input. |
| StringCleanup.RemoveIsSubsequence | trading-analyzer/Extensions/String.swift:6-19 | The cleaned text is the input with characters deleted, none added or reordered. |
| StringCleanup.RemoveKeepsPlainPrefix | trading-analyzer/Extensions/String.swift:6-19 | Text without ESC passes through unchanged, whatever follows it. |
| StringCleanup.RemoveWithoutEscapeIsIdentity | trading-analyzer/Extensions/String.swift:6-19 | A string with no ESC is returned unchanged. |
| StringCleanup.RemoveDropsSgr | trading-analyzer/Extensions/String.swift:10-15 | A well-formed colour sequence at the front is deleted. |
| StringCleanup.RemoveRecoversPlainText | trading-analyzer/Extensions/String.swift:6-19 | Removing the codes from coloured output leaves exactly its plain text. |
| StringCleanup.RemoveRedErrorExample | trading-analyzer/Extensions/String.swift:6-19 | `ESC[1;31mErr ESC[0m` becomes `Err`. |
| StringCleanup.RemoveKeepsOtherEscapes | trading-analyzer/Extensions/String.swift:10 | `ESC[m`, an unterminated `ESC[31` and `ESC[2K` are kept. |
| StringCleanup.RemoveNotIdempotent | trading-analyzer/Extensions/String.swift:14-15 | One pass is not idempotent: for any parameters p and q, `ESC[` followed by `ESC[<p>m` and `<q>m` cleans to `ESC[<q>m`, which a second pass deletes. |
| StringCleanup.Trim | trading-analyzer/Extensions/String.swift:23-25 | The result is the slice of the input between the leading and the trailing whitespace. It neither starts nor ends with whitespace. |
| StringCleanup.TrimIdentity | trading-analyzer/Extensions/String.swift:23-25 | A string with no whitespace at either end is its own trim. |
| StringCleanup.TrimIdempotent | trading-analyzer/Extensions/String.swift:23-25 | Trimming twice is the same as trimming once. |
| SwiftInt.IntToString | trading-analyzer/Services/CommandService.swift:49 | The decimal rendering is non-empty and starts with '-' exactly for negatives. |
| SwiftInt.ParseInt | trading-analyzer/Services/CSVParserService.swift:19 | `Int(String)` accepts only an optional sign followed by digits, within 64 bits. |
| SwiftInt.ParseIntRoundTrip | trading-analyzer/Services/CSVParserService.swift:19-26 | Parsing the rendering of a 64-bit integer gives the integer back. |
| SwiftInt.ParseIntRejectsStray | trading-analyzer/Services/CSVParserService.swift:19-26 | A character that is not a digit makes the parse nil, unless it is a sign in the first position. |
| SwiftInt.ParseIntRejectsEmpty | trading-analyzer/Services/CSVParserService.swift:19-26 | The empty string and a lone sign are not integers. |
| SwiftInt.ParseIntRejectsOutOfRange | trading-analyzer/Services/CSVParserService.swift:19-26 | Digits whose value is above `Int.max`, with no sign or with '+', are not integers. With '-', digits whose value is above `-Int.min` are not integers. |
| CsvParser.Field | trading-analyzer/Services/CSVParserService.swift:18-28 | A field is present exactly when the row has that column. |
| CsvParser.IntField | trading-analyzer/Services/CSVParserService.swift:19-26 | An integer column reads as a 64-bit value, and as 0 when it is missing. |
| CsvParser.RowToPosition | trading-analyzer/Services/CSVParserService.swift:18-42 | `isMarketLaunched` is true exactly when the field is the text "true". The text columns default to "". |
| CsvParser.ParsePositionData | trading-analyzer/Services/CSVParserService.swift:12-48 | There is one record per row, in order, each converted by `RowToPosition`. |
| CsvParser.EmptyRowDefaults | trading-analyzer/Services/CSVParserService.swift:18-28 | A row with no columns gives the all-default record. |
| CsvParser.IntColumnVerbatim | trading-analyzer/Services/CSVParserService.swift:19-26 | An integer column holding an integer's text yields that integer, with no scaling. |
| CsvParser.IntColumnIsField | trading-analyzer/Services/CSVParserService.swift:19-26 | Each integer column of the record is `Int(row[key] ?? "0") ?? 0` of its own named column. |
| CsvParser.IntColumnMalformed | trading-analyzer/Services/CSVParserService.swift:19-26 | An integer column with a stray non-digit reads as 0. A sign in the first position is not stray. |
| CsvParser.IntColumnEmptyOrSign | trading-analyzer/Services/CSVParserService.swift:19-26 | An integer column that is present but empty, or holds only '-' or '+', reads as 0. |
| CsvParser.IntColumnOutOfRange | trading-analyzer/Services/CSVParserService.swift:19-26 | An integer column holding digits beyond the 64-bit range, with or without a sign, reads as 0. |
| Alerts.AlertText | trading-analyzer/Services/AlertManager.swift:18-20 | The error's description wins, then the message, then "Unknown error". |
| Alerts.AlertManager.constructor | trading-analyzer/Services/AlertManager.swift:4-12 | Nothing is presented or recorded. |
| Alerts.AlertManager.AlertMessage | trading-analyzer/Services/AlertManager.swift:18-20 | The recorded error's description is shown when it has one. Otherwise, when there is no error or its description is nil, the message is shown, or "Unknown error" when there is no message. |
| Alerts.AlertManager.AlertTitle | trading-analyzer/Services/AlertManager.swift:14-16 | The title is always "Error". |
| Alerts.AlertManager.ShowError | trading-analyzer/Services/AlertManager.swift:22-25 | Records the error and presents the alert. The message is kept. |
| Alerts.AlertManager.ShowMessage | trading-analyzer/Services/AlertManager.swift:27-30 | Records the message and presents the alert. The error is kept. |
| Alerts.AlertManager.HideAlert | trading-analyzer/Services/AlertManager.swift:32-35 | Dismisses the alert and drops the error. The message stays. |
| Alerts.AlertManager.SetBinding | trading-analyzer/Services/AlertManager.swift:5-7 | Setting the binding sets `isAlertPresented`, which the binding then reads back. The error and the message are kept. |
| Alerts.ErrorMasksLaterMessage | trading-analyzer/Services/AlertManager.swift:18-35 | An error hides a later message until it is hidden. After that the stale message shows. |
| Alerts.UnknownErrorFallback | trading-analyzer/Services/AlertManager.swift:18-20 | With nothing recorded, or only an undescribed error, the text is "Unknown error". |
| GeneralSettings.FilePickerType.Title | trading-analyzer/Views/Settings/GeneralSettingsView.swift:17-28 | Every picker has a non-empty title. |
| GeneralSettings.FilePickerType.AllowedContentTypes | trading-analyzer/Views/Settings/GeneralSettingsView.swift:30-39 | Each picker accepts exactly one type. It is the directory type exactly for the two folders. |
| GeneralSettings.TitlesDistinct | trading-analyzer/Views/Settings/GeneralSettingsView.swift:11-28 | The titles identify the pickers. Every picker is listed. |
| GeneralSettings.RejectionMessage | trading-analyzer/Views/Settings/GeneralSettingsView.swift:126 | The message is "The selected folder is not correct for " followed by the kind's title. |
| GeneralSettings.IsCorrectFolder | trading-analyzer/Views/Settings/GeneralSettingsView.swift:41-56 | A result folder must hold `summary-results.json`. A data folder must be listable and contain a `.parquet` entry. The other kinds always pass. |
| GeneralSettings.Paths.With | trading-analyzer/Views/Settings/GeneralSettingsView.swift:129-140 | Storing sets exactly one path and keeps the other three. |
| GeneralSettings.CheckAllSet | trading-analyzer/Views/Settings/GeneralSettingsView.swift:150-156 | The result is true exactly when all four paths are non-empty. |
| GeneralSettings.GeneralSettingsView.constructor | trading-analyzer/Views/Settings/GeneralSettingsView.swift:61-81 | The view starts with the stored paths, no picker, its own alert manager with no alert, and the callback when one was given. |
| GeneralSettings.GeneralSettingsView.OnAppear | trading-analyzer/Views/Settings/GeneralSettingsView.swift:116-120 | The callback fires exactly when one was given and every path is set. |
| GeneralSettings.GeneralSettingsView.ChooseLocation | trading-analyzer/Views/Settings/GeneralSettingsView.swift:179-182 | Remembers the kind and opens the picker. The paths are unchanged. |
| GeneralSettings.GeneralSettingsView.HandleImport | trading-analyzer/Views/Settings/GeneralSettingsView.swift:121-147 | A rejected location raises an alert and stores nothing. An accepted one is stored in exactly its kind's setting. A picker failure raises an alert. The callback fires after every pick that is not rejected, exactly when a callback was given and all paths are set. With no kind remembered, nothing is stored, but the callback can still fire. |
| TradeStatsHelpers.WinrateColor | trading-analyzer/Views/Result/General/TradeStatsView.swift:376-384 | Above 5000 basis points the colour is green, below it red, and at exactly 5000 neutral. |
| TradeStatsHelpers.PnlColor | trading-analyzer/Views/Result/General/TradeStatsView.swift:365-374 | A positive number is green and a negative one red. Zero and text that is not a number are neutral. |
| TradeStatsHelpers.ParseDecimal | trading-analyzer/Views/Result/General/TradeStatsView.swift:352-366 | A parsed value comes from non-empty text, and a negative value from text starting with '-'. Plain digits parse to their decimal value. |
| TradeStatsHelpers.ParseDecimalOfInteger | trading-analyzer/Views/Result/General/TradeStatsView.swift:103-105 | An interpolated integer parses back to its value. |
| TradeStatsHelpers.PnlColorOfInteger | trading-analyzer/Views/Result/General/TradeStatsView.swift:103-105 | An interpolated integer amount is coloured by its sign. |
| TradeStatsHelpers.WinrateMatchesPnlConvention | trading-analyzer/Views/Result/General/TradeStatsView.swift:365-384 | A winrate is coloured as its distance from 50% would be coloured as a profit. |
| TradeStatsHelpers.TokenInfoFor | trading-analyzer/Views/Result/General/TradeStatsView.swift:350 | The token's metadata is used, or the native quote token's when the token has none. |
| TradeStatsHelpers.FormatTokenAmount | trading-analyzer/Views/Result/General/TradeStatsView.swift:349-358 | A number is shown in whole tokens with the symbol. Text that is not a number is shown verbatim with the symbol. |
| TradeStatsHelpers.InWholeTokens | trading-analyzer/Views/Result/General/TradeStatsView.swift:354 | The displayed number times 10^decimals is the raw amount. |
| TradeStatsHelpers.SortedKeys | trading-analyzer/Views/Result/General/TradeStatsView.swift:109 | The keys come out in ascending order, as a permutation of the input. |
| TradeStatsHelpers.AscendingUnique | trading-analyzer/Views/Result/General/TradeStatsView.swift:109 | Two ascending sequences with the same elements are equal. |
| TradeStatsHelpers.SortedKeysIndependentOfOrder | trading-analyzer/Views/Result/General/TradeStatsView.swift:109 | The rows do not depend on the order in which the dictionary yields its keys. |
| TradeStatsHelpers.PnlRows | trading-analyzer/Views/Result/General/TradeStatsView.swift:109-117 | The row tokens are the keys, one row each, in ascending order. Each row has its token's formatted amount and colour. |
| Appcast.HasLinkBelow | scripts/update-xml.py:33 | An element with no children has no link below it. A direct child that is a release-notes link counts. |
| Appcast.FirstIndexOfTag | scripts/update-xml.py:41-42 | The result is the position of the first child with the tag, and nil when no child has it. |
| Appcast.InsertionIndex | scripts/update-xml.py:44-53 | The insertion point is right after the first `pubDate`. Without one, it is right after the first `title`. Without either, it is 0. |
| Appcast.LinkElement | scripts/update-xml.py:37-38 | The new element is a `sparkle:releaseNotesLink` whose text is the notes path. |
| Appcast.WithLink | scripts/update-xml.py:55 | The link is inserted at the insertion point. Removing it gives back the old children in order. The item then has a link. |
| Appcast.PatchChild | scripts/update-xml.py:31-56 | An item without a link gets one. Every other child is unchanged. Afterwards every item has a link. |
| Appcast.Patched | scripts/update-xml.py:28-60 | The tree written keeps the root's tag and text, and the number of children of the root. |
| Appcast.AddReleaseNotesLink | scripts/update-xml.py:6-63 | The file is written exactly when some item under the channel lacked a link. What is written is the patched tree. The printed line is "Updated <file> with release notes links" after a write, and the no-changes line otherwise. |
| Appcast.LinkItems | scripts/update-xml.py:31-56 | The loop patches every child as `PatchChildren` says. `changes_made` is set exactly when an item lacked a link. |
| Appcast.PatchedItemsAllLinked | scripts/update-xml.py:31-56 | After the call every item under the first channel has a link, and no child was added or removed. |
| Appcast.PatchedTouchesOnlyLinklessItems | scripts/update-xml.py:29-35 | Only the first channel changes. Within it, only items that lacked a link change. |
| Appcast.NoChannelNoChange | scripts/update-xml.py:29-30 | Without a channel nothing changes and nothing is written. |
| Appcast.WrittenIffChanged | scripts/update-xml.py:58-63 | The script rewrites the file exactly when the patch changes the tree. |
| Appcast.PatchIdempotent | scripts/update-xml.py:33-35 | A second run finds nothing to do. |
| Appcast.WithLinkAddsOneElement | scripts/update-xml.py:55 | Exactly one element, the link, is added to the item's children. |

## Left out

- The processes themselves are left out: pipes, `Process.run` and waiting for exit. A
  run is an input outcome: either the launch failed with a description, or the run
  exited with optional UTF-8 standard output, optional standard error, and a 32-bit
  status.
- `print` output of `FolderMonitor` and of the scripts is not modelled. The backtest's
  console lines are modelled as a returned sequence.
- The file system, `open`/`close` and dispatch sources are modelled as method
  parameters and calls, one notification at a time. The main-queue and task
  interleavings are not modelled, and neither are the weak references.
- `FolderWatch.FolderMonitor.StartMonitoring`: requires a monitor that was never
  started. Restarting the same monitor, which would share `parentDescriptor` between
  two streams, is not modelled.
- The `deinit` is not modelled. It only calls `stopMonitoring()`.
- The parent monitor's cancel handler is not modelled as a separate step.
  `cleanupMonitors` has already set the descriptor to -1 by the time it runs, so it
  closes nothing.
- `PriceCharts.PriceChart.ResetZoom`: requires the first price to be no later than
  the last. Where that fails, Swift's `...` traps; the model does not describe the trap.
- `DateRanges.Scale`: requires the scaled bounds to be in order (`CanJoin`). Where they
  are not, Swift's `...` traps; `ScaleDefinedIff` states exactly when that happens.
- Swift `Double` rounding is not modelled. Times, prices and scales are exact reals,
  so the 0.8 and 1.2 zoom steps and the widths 48 s and 72 s are exact.
- `TradeStatsHelpers.FormatTokenAmount`: gives the number, not its `%.4f` rendering.
  `formatDuration` and `formatPercentage` are display formatting and are left out.
- `TradeStatsHelpers.ParseDecimal`, and `TradeStatsHelpers.PnlColor` through it: `Double(String)` is modelled for plain decimal text
  only: an optional sign, then digits with at most one point. Exponents, `inf` and
  `nan` are not modelled.
- `TradeStatsHelpers.SortedKeys`: sorts by code point. Swift's `String` comparison of
  canonically equivalent Unicode texts is not modelled.
- CSV tokenising, and the reading of the file behind `CSV<Named>(url:)`, are not
  modelled. A row is the map from header to field.
- Dates are not parsed. `createTime` and `updateTime` stay text.
- The DuckDB query behind `fetchPriceData` is not modelled. Its result is the `data`
  parameter.
- `setInitialDateRange`, the chart drawing and the gestures are not modelled.
- `calculateTradePrice` is not modelled.
- The XML parsing and the writing of the file are not modelled. The tree is a value,
  and the method returns the tree that would be written. Updating elements in place
  through shared references is therefore not modelled.
- Attributes and `tail` text of elements are not modelled. The script never changes
  them.
- The script's command-line entry point is not modelled. It reads `argv`, passes
  `./release_notes.md` as the default notes path, and prints usage and exits with
  status 1 when there are no arguments. The function's own default,
  `./release.md`, is unused by that entry point.
- Foundation's `localizedDescription` for an error that is not a `CommandError` is
  not modelled. It is the launch-failure description carried by the outcome.
