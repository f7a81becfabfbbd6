# dolar-telegram-bot, rate-change tracking pipeline

This project is a Dafny model of the pipeline dolar-telegram-bot uses to track the Argentine dollar rates. It covers:

- normalising the provider's quotes into seven instruments (oficial, blue, mep, ccl, tarjeta, cripto, mayorista);
- the difference against a previous quote;
- the Telegram report;
- the two monitoring ticks (scheduler/tasks.py and the standalone scheduler.py), with their snapshot and once-a-day notice flags;
- the history sinks: a per-instrument JSON history, a CSV log, the Supabase table, and a date-keyed store of each day's opening rates;
- the web table's baseline-relative rows;
- the bot's webhook dispatch.

Modelling choices:

- Amounts are exact `real`s. `round(x, 2)` is modelled as round-half-to-even on the exact value.
- Python dicts are either ordered entry sequences with distinct keys (`OrderedDict.ODict`, where iteration order matters) or `map`s.
- The files under data/ and logs/ are fields of one `Files.Disk` object.
- Telegram and Supabase are fields of one `Channels.Network` object.
- Whether a write succeeds, whether Telegram is up and how Supabase answers are fields of these objects. They do not change during one call.
- The hour, the date key, timestamps and the API's answer are parameters.

A few functions exist in several copies that are line-for-line equal: `prepare_data` (app.py, flask/flask.py), `parse_tipo` (utils/helpers.py, main.py) and `emoji` (utils/formatters.py:2-7, app.py:23-29, flask/flask.py:9-12, scheduler.py:65-68). `get_full_date` (utils/helpers.py, main.py, app.py) builds the same title in every copy, but app.py:80 reads the server's local clock with `datetime.now()` where the other two read Buenos Aires time; the model takes the date as parameters, so that difference lies outside it. Each function is modelled by one member; its table row names the other copies.

The two scheduler variants are modelled separately, because they differ:

- scheduler/tasks.py (`SchedulerTasks`):
  - clears its flags before 10;
  - compares a missing field against the current value;
  - sends every significant change to Supabase and the JSON history;
  - writes every parseable rate to the CSV in one batch.
- scheduler.py (`SchedulerScript`):
  - clears its flags only in `reset_market_flags`;
  - compares by truthiness for the alert but by `is not None` for the history;
  - writes the history CSV without catching a failed write, which aborts the tick.

## Model

| member | source | states |
|---|---|---|
| Quotes.Parse | scheduler/tasks.py:69-73 | `float(info["compra"])`, `float(info["venta"])` succeed exactly when both fields are present, and the stored form of the parsed pair is the raw entry back |
| Quotes.Round2Bounds | services/dolar_services.py:23-24 | `round(x, 2)` lies within half a hundredth of `x` and is a whole number of hundredths |
| Quotes.RoundHundredths | services/dolar_services.py:23-24 | a value already in hundredths is left unchanged by rounding |
| Quotes.RoundIdempotent | services/dolar_services.py:23-24 | rounding twice is rounding once |
| Quotes.PctBounds | services/dolar_services.py:23-24 | the percentage is 0 over a zero base (no division happens), otherwise within half a hundredth of `diff / base * 100` |
| Quotes.PctOfNoChange | services/dolar_services.py:23-24 | no change gives a 0 percentage over any base |
| Formatters.Emoji | utils/formatters.py:2-7 | green iff the change is positive, red iff negative, yellow iff zero (the copies at app.py:23-29, flask/flask.py:9-12 and scheduler.py:65-68 are the same) |
| Formatters.EmojiIsOneOfThree | utils/formatters.py:3-7 | every change gets exactly one of three distinct markers |
| DolarServices.ComputeDiff | services/dolar_services.py:12-26 | a field missing from `last` shows diff 0 and pct 0; otherwise last + diff equals the current value; a zero baseline gives pct 0; otherwise pct is the rounded percentage |
| DolarServices.AsRaw | services/dolar_services.py:65 | the fetched rates read back as raw pairs keep their keys and order, and every entry parses to its buy/sell pair |
| DolarServices.GroupsSpelledOut | services/dolar_services.py:66-72 | the seven pattern groups are exactly the substring tests of the `if/elif` chain |
| DolarServices.KeyFor | services/dolar_services.py:66-72 | the key chosen for a name is always one of the seven instruments, or none |
| DolarServices.KeyForFirstMatch | services/dolar_services.py:66-72 | a name maps to the key of the first matching group, in chain order; it maps to none iff no group matches |
| DolarServices.LatestFecha | services/dolar_services.py:58-62 | the latest update instant is the date of some kept item, and no kept item carries a later one |
| DolarServices.FetchDolarRates | services/dolar_services.py:29-85 | a failed request, or the first item that raises, gives the error text and no rates. Otherwise: items missing buy or sell are skipped; names are lower-cased before matching; each key holds the last kept item mapped to it; the keys are in the order in which each instrument's first kept item appears; every key is an instrument; `updated_at` is the latest date or "desconocida" |
| DolarServices.FormatRate | services/dolar_services.py:109-122 | a block shows the instrument's icon (the default one for other names), the capitalised name, the current pair (0/0 when absent), and `compute_diff` of the current pair against the last pair (0/0 when absent), with the sign markers of that change |
| DolarServices.BlockShowsChange | services/dolar_services.py:110-121 | against a last pair with both fields, the block's change is the current value minus the last one, green iff it rose and red iff it fell |
| DolarServices.InstrumentIcons | services/dolar_services.py:113 | the default icon is shown exactly for names outside the seven instruments |
| DolarServices.MissingLastShowsWholeValue | services/dolar_services.py:110-111 | an instrument missing from `last_rates` is compared with 0/0: its change is its whole current value and its percentage is 0 |
| DolarServices.FormatMessage | services/dolar_services.py:88-134 | a fetch error is returned verbatim. With no type, the report has one block per instrument in `DOLAR_TYPES` order. A known type (any case) gets its single block. An unknown type gets the "No se encontró" text |
| DolarServices.ReportOrder | services/dolar_services.py:131-134 | the full report names the seven instruments once each, in order |
| Files.LoadJsonAsWritten | utils/file_helpers.py:22-38 | `None` iff the file is missing; `[]` iff it is unreadable or holds `{}`; otherwise the decoded object |
| Files.LoadJson | scheduler.py:48-55 | the decoded object, or `{}` when the file is missing or unreadable |
| Files.LoadersAgreeOnObjects | utils/file_helpers.py:32-34 | both loaders give the same object exactly on files holding a non-empty object |
| Files.CsvAppended | storage/csv_history.py:13-18 | an append writes the header exactly when the file did not exist, then the rows in order; a failed write leaves the file as it was |
| Files.CsvAppendWellFormed | storage/csv_history.py:13-18 | appending keeps at most one header, at the top of the file |
| Files.Disk.constructor | utils/file_helpers.py:22-27 | a fresh disk has no JSON files, no CSV and empty logs |
| Files.Disk.LogError | utils/file_helpers.py:14-20 | `log_error` appends one line to the error log |
| Files.Disk.WriteLastRates | utils/file_helpers.py:40-47 | `save_json` replaces the file when the write succeeds and leaves it otherwise |
| Files.Disk.AppendCsv | services/storage.py:71-86 | the file is appended to in mode "a", header first only into a new file |
| Files.Warnings | services/storage.py:36-37 | every printed failure carries the ⚠️ prefix, one line per message |
| Channels.Network.Send | utils/telegram_client.py:10-14 | Telegram records the message iff it is up |
| Channels.Network.Post | storage/supabase_client.py:36-39 | the table stores the row iff the endpoint accepts |
| Channels.RemoteErrors | storage/supabase_client.py:21-41 | nothing is logged iff the variables are set and the POST is accepted |
| Channels.InsertCotizacionSupabase | storage/supabase_client.py:18-41 | the row is stored only when configured and accepted; every other outcome is logged and never raised |
| Channels.SafeSendMessage | utils/telegram_helpers.py:7-13 | a failed send is logged and never raised |
| JsonHistory.WithRecord | storage/json_history.py:19-22 | `setdefault` plus `append` adds the name and changes no other name's list |
| JsonHistory.AppendedRecords | storage/json_history.py:16-25 | the name's list ends with the new record after its earlier ones, in order; a new name gets exactly `[rec]`; every other name is unchanged |
| JsonHistory.AppendToJsonHistory | storage/json_history.py:7-30 | the file is loaded, extended and saved; read and write failures are logged, never raised (corrected loader: the as-written `load_json` behaviour is under "## Findings") |
| JsonHistory.AppendOnly | storage/json_history.py:16-25 | after any run of appends, each name holds its old list followed by its new records in order |
| JsonHistory.HistoryAppendedAsWritten | storage/json_history.py:14-30 | over the shipped loader, a file that is missing, unreadable or `{}` is left as it was |
| JsonHistory.HistoryNeverStartsAsWritten | storage/json_history.py:16-19 | as written, such a file is never written, whatever the run of appends |
| JsonHistory.FirstAppendCreatesHistory | storage/json_history.py:16-22 | with the `{}` default, the first append creates `{name: [rec]}`; as written it creates nothing |
| CsvHistory.CsvAfter | storage/csv_history.py:15-18 | an empty batch leaves the file unchanged; otherwise the batch is appended header-once |
| CsvHistory.AppendToCsv | storage/csv_history.py:8-20 | `append_to_csv`: a failed write of a non-empty batch is logged, never raised |
| CsvHistory.BatchRowsAppended | storage/csv_history.py:17-18 | a batch's rows follow the file's earlier rows, in order |
| CsvHistory.CsvRun | storage/csv_history.py:12-18 | over any run of batches the file keeps at most one header, at its top, and its rows are all the batches' rows in order |
| InitialRates.LoadInitialRates | storage/initial_rates.py:6-14 | `load_initial_rates` returns the stored date→rates map as it is, `{}` when missing or unreadable (corrected loader: the as-written `load_json` behaviour is under "## Findings") |
| InitialRates.SaveInitialRatesByDay | storage/initial_rates.py:16-37 | the file becomes `InitialsAfter`: today's key is written only when absent; the read and the write failures are logged (corrected loader: the as-written `load_json` behaviour is under "## Findings") |
| InitialRates.SaveByDayEffect | storage/initial_rates.py:32-37 | an absent date is inserted with `rates`; a present date leaves the file exactly as stored |
| InitialRates.FirstWriterWins | storage/initial_rates.py:20-34 | after two saves on one date, the first save's rates (or what was there before) are stored |
| InitialRates.OtherDatesUntouched | storage/initial_rates.py:34 | no other date is added, removed or changed |
| InitialRates.SaveByDayAsWritten | storage/initial_rates.py:29-34 | over the shipped loader the call raises exactly when the store is not a non-empty object |
| InitialRates.InitialsNeverStartAsWritten | storage/initial_rates.py:29-37 | as written, a missing, unreadable or `{}` store raises on every call; with the `{}` default, the first call creates `{today: rates}` |
| InitialRates.AsWrittenAgreesOnObjects | storage/initial_rates.py:29-37 | on a non-empty object store, the as-written and corrected saves agree |
| StorageService.Stamp | services/storage.py:54 | an absent or empty timestamp falls back to now; any other is kept |
| StorageService.StorageCells | services/storage.py:73-86 | the CSV row has one cell per field name of the fixed eight |
| StorageService.PostErrors | services/storage.py:101-106 | something is printed iff the variables are set and the POST is not accepted |
| StorageService.GuardarCotizacion | services/storage.py:49-108 | one timestamp for all three sinks. One seven-field record is appended to the name's JSON list. One eight-field CSV row is appended, header-once. The row is posted only when configured and after a successful CSV write. Remote failures are printed, never raised. A failed CSV write raises and skips the remote step. No threshold is consulted |
| StorageService.EveryCallAppends | services/storage.py:49-68 | even an unchanged quote adds exactly one record to its name's list |
| Helpers.FirstKeyword | utils/helpers.py:34-37 | the result is the value of the first keyword from the given position that occurs in the text; none iff none occurs |
| Helpers.ParseTipo | utils/helpers.py:25-37 | `parse_tipo` returns the value of the first mapping key, in mapping order, occurring in the text; None iff none occurs (main.py:61-69 is the same search over the same mapping) |
| Helpers.ParseTipoInTypes | utils/helpers.py:30-37 | the result is always one of the seven instruments or None |
| Helpers.BolsaIsMep | utils/helpers.py:31 | "bolsa" selects "mep" when no earlier key occurs |
| Helpers.FullDate | utils/helpers.py:9-23 | the title is "Cotización del dólar hoy " followed by the capitalised weekday (0 is Monday), the day and the capitalised month `meses[m-1]` (main.py:49-59 and app.py:74-84 build the same title) |
| Helpers.CapitalizedNames | utils/helpers.py:14-22 | weekday 0 is "Lunes", weekday 2 is "Miércoles", month 10 is "Octubre" |
| Helpers.FullDateExample | utils/helpers.py:12 | Wednesday the 29th of October reads "Miércoles 29 de Octubre", as the docstring says |
| SchedulerTasks.Gate | scheduler/tasks.py:36-49 | before 10 both flags clear and nothing is sent; the open notice goes out iff hour is 10 and it was not sent, and likewise the close notice at 17; at most one notice; the flags record them |
| SchedulerTasks.OpenAtMostOncePerDay | scheduler/tasks.py:41-44 | over any run of ticks after 10, the open notice goes out at most once, and never when it was already sent |
| SchedulerTasks.FirstSightIsNoChange | scheduler/tasks.py:75-83 | a name not in the snapshot is compared with itself: all changes and percentages are 0 |
| SchedulerTasks.AlertingIsSignificant | scheduler/tasks.py:107-118 | exactly the observations whose buy or sell change reaches the threshold reach the sinks and the alert |
| SchedulerTasks.OneObservationPerParseable | scheduler/tasks.py:68-73 | every parseable rate is observed once, in order; unparseable entries are skipped |
| SchedulerTasks.SnapshotElsewhere | scheduler/tasks.py:121 | a name the tick does not mention keeps its snapshot entry |
| SchedulerTasks.SnapshotAlwaysUpdated | scheduler/tasks.py:69-73 | every parseable rate's pair is stored under its name, significant or not; a name with no parseable rate keeps its entry |
| SchedulerTasks.ComparedWithPreviousTick | scheduler/tasks.py:75-83 | each parseable rate is compared with the pair the previous tick stored under its name |
| SchedulerTasks.BlueMovesScenario | scheduler/tasks.py:68-121 | blue moving from 350/360 to 352/361 shows changes of 2 and 1, is alerted, and is stored |
| SchedulerTasks.FetchedRatesAllObserved | scheduler/tasks.py:56-73 | every instrument of a successful fetch is observed, in the fetch's order |
| SchedulerTasks.CsvCells | scheduler/tasks.py:97-105 | one CSV row per parseable rate |
| SchedulerTasks.Blocks | scheduler/tasks.py:108-114 | one alert block per significant observation |
| SchedulerTasks.RowsOf | scheduler/tasks.py:117 | one remote row per significant observation |
| SchedulerTasks.RemoteGetsEveryAlert | scheduler/tasks.py:116-117 | with Supabase accepting, the table keeps its rows and gains one row per significant observation, in order |
| SchedulerTasks.UnconfiguredRemoteStaysEmpty | scheduler/tasks.py:117 | without the Supabase variables nothing reaches the table |
| SchedulerTasks.SinkObservation | scheduler/tasks.py:116-118 | a significant change goes to the remote table first, then to the JSON history (corrected loader: the as-written `load_json` behaviour is under "## Findings") |
| SchedulerTasks.StoredAll | scheduler/tasks.py:127 | the saved snapshot holds every instrument's pair as `{"compra", "venta"}` |
| SchedulerTasks.TaskState.constructor | scheduler/tasks.py:17-20 | an empty snapshot and both flags clear |
| SchedulerTasks.TaskState.GateTick | scheduler/tasks.py:36-49 | the flags become the gate's; its notices go to the configured chat through `safe_send_message` |
| SchedulerTasks.TaskState.RecordRates | scheduler/tasks.py:64-121 | the loop leaves the snapshot updated by every parseable rate. It gathers the alert blocks and CSV rows of the observations. The sinks receive exactly the significant ones, in order |
| SchedulerTasks.TaskState.MonitorTick | scheduler/tasks.py:64-131 | the whole new state is `AfterMonitor` of the old one: the loop's snapshot, JSON history and remote rows; one CSV batch of all rows; the snapshot saved; the header alert sent only if some change was significant; every failure logged |
| SchedulerTasks.TaskState.MonitorInWindow | scheduler/tasks.py:52-131 | outside 10 ≤ hour < 17 nothing changes; inside, the state becomes `AfterMonitor` over the fetched rates |
| SchedulerTasks.TaskState.CheckAt | scheduler/tasks.py:22-131 | for any threshold: the flags become the gate's, and the state becomes `AfterCheck`, the gate's notices then the in-window monitoring |
| SchedulerTasks.AlertIffSignificant | scheduler/tasks.py:130-131 | with Telegram up, a monitoring pass sends at most one alert, and sends one exactly when some observation reaches the threshold |
| SchedulerTasks.OutsideWindowOnlyNotices | scheduler/tasks.py:36-53 | outside 10 ≤ hour < 17 a tick changes neither the snapshot nor the files nor the table, and sends at most one notice; before 10 it changes nothing at all |
| SchedulerTasks.TaskState.CheckAndSaveDolar | scheduler/tasks.py:22-131 | the flags become the gate's. The new state is `AfterCheck` of the old: the gate's notices, then, inside 10 ≤ hour < 17 only, `AfterMonitor` over the fetched rates (none after a fetch error) with the 0.00001 threshold, which gives the snapshot, JSON history, remote rows, CSV batch, saved last_rates.json, the header alert iff some change is significant, and the error log |
| SchedulerTasks.TaskState.SendDailySummary | scheduler/tasks.py:133-136 | the summary notice goes out first (logged if Telegram is down), then the new state is that of `check_and_save_dolar` from there |
| SchedulerTasks.TaskState.ResetFlags | scheduler/tasks.py:138-142 | both flags are cleared |
| SchedulerScript.MessageDelta | scheduler.py:105-112 | the alert's change: with a truthy baseline, last + diff equals the current value and pct is the rounded percentage; a missing or zero baseline shows 0 and 0% |
| SchedulerScript.HistoryDiff | scheduler.py:153-154 | the history's change: only a missing baseline counts as no change |
| SchedulerScript.PathsDisagreeOnlyOverZero | scheduler.py:105-154 | the alert and the history agree on a change iff the stored value is not 0 (or the current value is 0) |
| SchedulerScript.FirstSightIsQuiet | scheduler.py:105-156 | a name seen for the first time is neither alerted nor written to the history |
| SchedulerScript.ScriptBlocksCount | scheduler.py:114-120 | the alert has no block iff no observation's change reaches the threshold |
| SchedulerScript.HistoryRowsCount | scheduler.py:152-188 | on a writable disk with an existing CSV, the CSV gains one row per history-worthy observation; only the first write reports an unreadable history |
| SchedulerScript.HistoryStaysReadable | scheduler.py:161-171 | after one history write the JSON file is readable; with none it is untouched |
| SchedulerScript.ScriptState.constructor | scheduler.py:25-27 | an empty snapshot and both flags clear |
| SchedulerScript.ScriptState.LoadSnapshot | scheduler.py:214-216 | the snapshot is read back from data/last_rates.json (`{}` when missing or unreadable) |
| SchedulerScript.ScriptState.ScriptGate | scheduler.py:75-83 | a notice goes out only at 10 (resp. 17) with its flag clear, and sets it; a failed send is logged; nothing here clears a flag |
| SchedulerScript.ScriptState.ScanRates | scheduler.py:98-132 | the loop completes iff the disk is writable or no observation is history-worthy. When it completes, the snapshot is updated by every parseable rate, the blocks are those of the alerted observations, and the history files are updated. When it aborts (at the first history-worthy rate, `FirstWorthy`), the snapshot holds only the rates before that one, the history JSON and the CSV are unchanged, and the log gains that rate's history read and write errors |
| SchedulerScript.ScriptState.ScanOne | scheduler.py:98-132 | one turn: a parseable rate is alerted iff its change is significant, goes to the history iff worth a row, and updates the snapshot only if its CSV write did not raise; `ok` is false exactly on an unwritable disk with a history-worthy change |
| SchedulerScript.ScriptState.MonitorScript | scheduler.py:89-139 | the tick completes iff the disk is writable or no change is worth a history row. A completed tick's state is `AfterScript`: the unused history load's read error, the history JSON and CSV of every history-worthy change, the snapshot updated and saved, and the header-less alert only when some change was alerted. An aborted tick's state is `ScriptAborted`: the snapshot in memory holds only the rates before the first history-worthy one, the log gains the read errors of both history loads and the JSON write error, and the files and the sent messages are unchanged |
| SchedulerScript.ScriptState.ScriptInWindow | scheduler.py:86-139 | outside 10 ≤ hour < 17 nothing changes; inside, the state becomes that of `MonitorScript`, `AfterScript` when completed and `ScriptAborted` when not |
| SchedulerScript.ScriptState.ScriptCheckAt | scheduler.py:71-139 | for any threshold: the flags are set by the notices; the tick's state is `AfterScriptCheck`, which is the notices, then inside the window the completed pass or, when it aborts, `ScriptAborted` |
| SchedulerScript.CompletedTickStoresEveryRate | scheduler.py:132-135 | after a completed tick every parseable rate's pair is in the snapshot under its name, and on a writable disk the saved file holds that snapshot |
| SchedulerScript.FirstWorthy | scheduler.py:98-129 | the index of the first rate that is parseable and worth a history row, or the number of rates when there is none |
| SchedulerScript.FirstWorthyFound | scheduler.py:98-129 | a first history-worthy rate exists iff some observation of the tick is worth a row, and no observation before it is |
| SchedulerScript.AbortRepeats | scheduler.py:123-132 | after an aborted tick the stale snapshot makes a tick over the same rates on a still-unwritable disk abort again at the same rate, so the later rates never reach the snapshot and no alert is sent |
| SchedulerScript.ScriptSnapshotHas | scheduler.py:132 | the loop leaves each parseable rate's raw pair under its name |
| SchedulerScript.ScriptState.CheckDolarChanges | scheduler.py:71-139 | the notices always go out first and set their flags. The tick aborts exactly when it is inside 10 ≤ hour < 17, the disk is not writable and some change is worth a history row. The new state is `AfterScriptCheck` with the 0.5 threshold: the notices, then, inside the window, either the history files, the saved snapshot and the header-less alert, or on abort the partial snapshot and the logged history errors with nothing saved or sent |
| SchedulerScript.ScriptState.SendDailySummary | scheduler.py:142-143 | the summary is only a tick: the same contract as `check_dolar_changes` |
| SchedulerScript.ScriptState.ResetMarketFlags | scheduler.py:146-149 | both flags are cleared |
| SchedulerScript.ScriptNotices | scheduler.py:75-83 | at most one notice: the open one iff hour is 10 with its flag clear, the close one iff hour is 17 with its flag clear (when Telegram is up) |
| SchedulerScript.OpenNoticeNotRepeated | scheduler.py:76-78 | once sent, the open notice is not repeated until the flags are reset |
| SchedulerScript.LogHistoryIfSignificant | scheduler.py:152-188 | below the threshold nothing happens. Otherwise the record is appended to the JSON history (failures logged) and a row to the CSV, header-once. A failed CSV write raises |
| SchedulerScript.AutoRow | scheduler.py:196-203 | the timestamp, then one selling price per instrument in `DOLAR_TYPES` order, 0 when absent |
| SchedulerScript.LogRatesAuto | scheduler.py:190-211 | one row is appended to the shared CSV, header-once; a line is printed either way |
| SchedulerScript.SharedCsvMixesSchemas | scheduler.py:175-207 | a CSV started by `log_rates_auto` has an 8-column header, and the history rows that follow have 6 cells |
| WebTable.ValueOf | app.py:47-48 | a dict gives its two fields (a missing one fails); any other value is used as both buy and sell |
| WebTable.RowAgainst | app.py:50-62 | a missing or zero baseline field makes the whole row 0. Otherwise the markers follow the sign of current minus baseline, and the percentages are that change over the baseline |
| WebTable.InsertedKeeps | app.py:51-52 | names already in the baseline keep their values |
| WebTable.InsertedElsewhere | app.py:51-52 | names the data does not mention are neither added nor changed |
| WebTable.InsertedCovers | app.py:51-52 | after the call the baseline holds every parseable name; a new one holds its current pair |
| WebTable.PrepareData | app.py:42-72 | the rows have exactly the data's keys, in order. Each row is computed against the baseline the caller passed (0 changes with none). The caller's baseline gains the parseable names it lacked (flask/flask.py:28-58 is the same code) |
| WebTable.MissingNameShowsNoChange | app.py:51-56 | a name the baseline lacks is compared with itself: yellow markers and 0%, or all 0 when a price is 0 |
| WebTable.SelfBaselineIsFlat | app.py:116-121 | against a baseline equal to the data, every row is flat |
| WebTable.ToMap | app.py:118 | the map holds exactly the dict's keys |
| WebTable.AsValues | app.py:121 | the fetched rates reach `prepare_data` as dicts with both fields, under the same keys |
| WebTable.WebStore.RealRates | app.py:109-126 | an empty stored baseline is replaced by the current data and saved; the rows are computed against the baseline; the data is saved as the last rates (flask/flask.py:97-117 does the same) |
| WebTable.FirstVisitIsFlat | app.py:116-121 | on the first visit every row shows no change |
| MainApp.CommandOf | main.py:140-163 | the text, lower-cased and stripped, selects help iff it is one of the four help words, `/dolar` iff it starts so; the type is `parse_tipo` of it |
| MainApp.DolarTipoIsKnown | main.py:165 | a `/dolar` command names one of the seven instruments or none |
| MainApp.SavedRates | main.py:173 | the saved last rates are the fetched ones, `{}` after a fetch error |
| MainApp.TelegramWebhook | main.py:134-193 | an update without a message answers ok and sends nothing, saves nothing and logs nothing. A message without a chat id fails with a printed error and logs nothing. Otherwise the reply goes to the chat, and a send failure is printed. `/dolar` is formatted against the last rates as they were before the call, then saves the fetched ones, logging an unreadable last-rates file and a failed save; other commands log nothing (corrected loader: the as-written `load_json` behaviour is under "## Findings") |
| MainApp.AnswerMessage | main.py:143-189 | the help, `/dolar` or default reply goes to the chat; only `/dolar` saves, and only it logs (an unreadable last-rates file, a failed save) (corrected loader: the as-written `load_json` behaviour is under "## Findings") |
| MainApp.SaveLastRates | main.py:168-173 | the read failure is logged, then the fetched rates replace the last rates (a failed write is logged) (corrected loader: the as-written `load_json` behaviour is under "## Findings") |
| MainApp.DolarOutcomeAsWritten | main.py:168-170 | as written, `/dolar` raises exactly when the fetch succeeded, the type is none or known, and the last-rates file is missing, unreadable or `{}` |
| MainApp.DolarOutcome | main.py:168-170 | with the `{}` default, `/dolar` always replies |
| MainApp.DolarNeverRecoversAsWritten | main.py:163-181 | as written, over a run of `/dolar` commands with no scheduler tick in between, from a missing, unreadable or `{}` file every successful `/dolar` raises and the file stays in that class; the corrected branch replies to each |
| MainApp.TickSaveLetsDolarAnswer | scheduler/tasks.py:121-127 | a scheduler tick on a writable disk with a parseable rate saves a non-empty data/last_rates.json, after which the as-written `/dolar` replies |
| MainApp.MainRealRates | main.py:102-125 | the openings are loaded before today's is saved (first writer wins). Each row is compared with today's opening from that earlier load, or with the current data when there is none. The data is saved as the last rates. The log gains the read error of each of the two openings loads, the failed write of today's opening when it was absent, and the failed last-rates save (corrected loader: the as-written `load_json` behaviour is under "## Findings") |
| MainApp.FirstVisitOfTheDayIsFlat | main.py:118-119 | with no opening stored for today, every row shows no change |

## Left out

- HTTP: `requests.get`/`post`, their timeouts and status handling. The API's answer is a parameter (`ApiResponse`). Telegram and Supabase are `Network` fields that accept or fail.
- Exception texts appended to log lines (`: {e}`), log timestamps, and the echo of `log_error` to standard output.
- Number and string rendering: `f"{x:+.2f}"`, `:.2f`, the `%` suffixes, and the joining of blocks into one text. Reports and alerts are structured records (`Formatted`, `AlertBlock`).
- The web table's percentages are exact; their two-decimal rendering is not modelled.
- Clocks and time zones: `datetime.now`, `ZoneInfo`, `fromisoformat` and `date.today()`. The hour, the date key, timestamps and a renderer for the update instant are parameters. Parsed dates are integers.
- flask/flask.py `get_full_date` (locale-dependent `strftime`) and the `/mock` routes (random values).
- Scheduling: the job registration of `start_scheduler` (scheduler.py:217-225) and scheduler/main_scheduler.py. Each job is a method called with the hour. `start_scheduler`'s immediate first tick is not modelled.
- The fetch's `log_error` call in its `except` branch (services/dolar_services.py:83-84), and the `log_error` of a raising `get_all_dolar_rates` in scheduler.py:91-93, which cannot raise.
- The closing `print` of `guardar_cotizacion` (services/storage.py:108). The `promedio` field is computed but never read downstream.
- Values in last_rates.json that are present but not numbers: a raw field is either absent or a number.
- An update whose `text` is JSON null.
- The error answer of `real_rates`: app.py:125-126 and main.py:124-125 return the error string with status 500, while flask/flask.py:116-117 returns the bare string, that is status 200. No modelled step raises under the `{}` loader.
- DolarServices.FetchDolarRates: a provider price that is present but not a number (a string such as `"1050"`) makes `(compra + venta) / 2` raise at services/dolar_services.py:55, so the whole fetch fails with the error text and no rates (lines 81-85). The model's prices are either absent or numbers, so this failure and Python's `TypeError` text are not expressed.
- Unicode whitespace: `strip` removes ASCII whitespace only.
- Unicode case: `lower()`, `capitalize()` and `title()` (`Text.Lower`, `Text.TitleCase`) map ASCII letters only; accented capitals such as "É" are left as they are.
- Per-file write failures: one `writable` flag of `Files.Disk` decides every write under data/ in a call. A CSV write that fails while the snapshot save of the same tick succeeds (scheduler/tasks.py:118, :124 and :127 are caught separately) is not expressed.
- A failing error log: `log_error` (utils/file_helpers.py:14-20, scheduler.py:36-39) opens logs/errors.log without a guard, inside `except` blocks. The model assumes the log always accepts a line, so every "logged, never raised" contract rests on that.
- The `{}` loader: these members read the JSON files through the corrected `Files.LoadJson` rather than utils/file_helpers.py `load_json`, so their contracts hold for the as-written code only on files holding a non-empty object: JsonHistory.AppendToJsonHistory, InitialRates.LoadInitialRates, InitialRates.SaveInitialRatesByDay, SchedulerTasks.SinkObservation (and the ticks that call it), MainApp.TelegramWebhook, MainApp.AnswerMessage, MainApp.SaveLastRates, MainApp.MainRealRates. The as-written behaviour is under "## Findings".
- Import errors. The model assumes the evidently intended bindings:
  - main.py imports `prepare_data` from utils/formatters.py, which does not define it.
  - storage/initial_rates.py imports `INITIAL_RATES_FILE` from scheduler/constants.py, which does not define it.
  - app.py and flask/flask.py import `load_initial_rates`, `save_initial_rates` and `save_last_rates` from services/dolar_services.py, which defines none of them. The stores they reach are the fields of `WebTable.WebStore`.
- routes/dolar.py (charts), services/notifier.py, supabase_client.py at the top level, and the tests are not part of this model.
- Quotes.Round2: `round(x, 2)` is modelled on the exact value, while Python rounds the binary float, so a value such as 2.675 (stored as 2.67499…) rounds to 2.67 in the source and to 2.68 in the model.
- Quotes.Pct: the percentage is computed and rounded exactly; the float division and rounding of services/dolar_services.py:23-24 can differ from it in the last hundredth.
- SchedulerScript.MessageDelta: the differences are exact; the float subtraction behind the `>= threshold` tests (scheduler.py:114 and :156, scheduler/tasks.py) can fall on the other side of the threshold than the exact difference when a change lies within rounding error of it.

## Findings

All three rows share one root cause. utils/file_helpers.py `load_json` returns `None` for a missing file and `[]` for an unreadable file or one holding `{}`, where its callers expect a dict (`Files.LoadJsonAsWritten`). The corrected model uses the `{}` default that scheduler.py and services/storage.py define for themselves (`Files.LoadJson`).

| source | as written | input that shows it | evidently intended | confidence | as-written member | corrected member |
|---|---|---|---|---|---|---|
| storage/json_history.py:16-22 | `history_data.setdefault` on `None` or `[]` raises; the exception is logged and nothing is saved | any append while data/history.json is missing | the first append creates the file with `{name: [record]}` | not executed | JsonHistory.HistoryNeverStartsAsWritten | JsonHistory.AppendOnly |
| storage/initial_rates.py:29-34 | `today_str not in None` raises; `[][today_str] = rates` raises | any call while data/initial_rates.json is missing or holds `{}` | the first call of a day stores that day's opening (first writer wins) | not executed | InitialRates.InitialsNeverStartAsWritten | InitialRates.FirstWriterWins |
| main.py:168-170 | `format_message` calls `last_rates.get` on `None` or `[]` and raises; the save of line 173 is skipped | `/dolar` after a successful fetch while data/last_rates.json is missing (the first `/dolar` ever), until a scheduler tick saves the file | every instrument is compared with 0/0 and the reply is sent | not executed | MainApp.DolarNeverRecoversAsWritten | MainApp.TelegramWebhook |
