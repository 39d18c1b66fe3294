# Mercari item image downloader, modelled in Dafny

The browser add-on has two scripts.

- The page script (`content.js`) reads the item id from the page URL. It then
  probes the image indices 1 to 40 with HEAD requests, in batches of five. For
  each image that answers `ok` it asks the background script to download it,
  and it stops after the first batch in which at least three probes failed.
- The background script (`background.js`) answers two requests:
  - `downloadImage` fetches one image, starts its download, and listens for
    the download to complete or be interrupted. It counts the outcome in the
    background script's success and failure counters (`background.js:20-21`),
    which installation resets.
  - `directDownload` fetches and saves a list of URLs one after another. It
    reports progress and errors to the tab and waits 5 s after each saved image
    and 10 s after each failure. It ends by announcing `allDownloadsComplete`.

A queue of pending downloads, a concurrency limit and retries are declared
(`background.js:7-11`). The code never uses any of them, so the model has
none of them.

Files:

- `wrappers.dfy`: `Option`.
- `naming.dfy`: decimal printing and the `<folder>/<itemId>_<n>.jpg` path
  convention. Parsing it back is proved to invert it.
- `content.dfy`: item-id extraction, the probe and save templates,
  `processImage`, and the batch loop of `downloadAllImages`. The batch loop is
  an imperative method, proved against the function `RunBatches`.
- `fetch.dfy`: the error messages of `fetchImageAsBinary`, which both requests
  of the background script report.
- `deltas.dfy`: download-change deltas and the test both completion listeners
  apply to them.
- `direct_download.dfy`: the `directDownload` loop as a method that returns the
  trace of observable events. Lemmas project the trace onto each kind of event:
  progress reports, download requests, object-URL revocations, error reports
  (index and message), delays and the final report.
- `completion.dfy`: the `downloadImage` listener. It is modelled twice:
  - as a pure state machine (`Step`, `Run`);
  - as classes: the background page with its counters, and a listener object
    with its registered and revoked flags.

  `Listener.OnChanged` is proved to follow `Step`.

Host APIs, the network and timers are inputs. A probe outcome per index
(`Probe`), an outcome per URL (`Attempt`: the fetch failed, the download was
rejected, or it started and received a sequence of deltas), and the start of
a `downloadImage` request (`Launch`) are given by the caller.

## Model

| member | source | states |
|---|---|---|
| Naming.Decimal | content.js:128 | `${index}` prints a non-empty digit string without a leading zero, starting with `0` only for 0 |
| Naming.DecimalRoundTrip | content.js:128 | a printed index reads back as the same number |
| Naming.DecimalInjective | content.js:141 | two indices print the same only when they are equal |
| Naming.ParseDecimalRoundTrip | content.js:141 | a printed index reads back as the same digits |
| Naming.SplitLast | background.js:151 | splitting at the last separator gives parts that rebuild the string, the second part free of the separator; None iff the separator is absent |
| Naming.ParseFileNameSound | background.js:151 | every accepted `<itemId>_<n>.jpg` name is the file name of the parts it returns |
| Naming.ParseImagePathSound | background.js:151 | every accepted path is the formatted path of the parts it returns, with an item id free of `/` |
| Naming.FormatParseRoundTrip | content.js:141 | a `<folder>/<itemId>_<n>.jpg` path reads back as folder, item id and index when the id has no `/` |
| Naming.IndexDeterminesPath | background.js:151 | for one folder and one item id, whatever characters they hold, two paths are equal iff their indices are |
| Naming.FormatImagePathInjective | content.js:141 | two such paths are equal iff their folder, id and index are |
| Deltas.Classify | background.js:73-100 | a listener reacts iff the ids agree and the delta carries a state other than in-progress; completion iff that state is `complete`; an interruption carries the delta's error |
| Deltas.FirstTerminalIsFirst | background.js:72-102 | the first delta a listener reacts to is found: none iff no delta is terminal, else its position, its kind, and nothing terminal before it |
| Deltas.ErrorText | background.js:98 | the error text is the delta's error when present and non-empty, and the fixed "unknown error" text when the error is absent or empty; never empty |
| Fetch.FetchErrorMessageParts | background.js:36-44 | a response that is not `ok` throws the fixed text followed by the status in decimal, which reads back as that status; a rejected fetch rethrows its own message |
| Content.FindMatch | content.js:64 | the leftmost position from `p` on where `/item/` is followed by an id character; None iff there is none |
| Content.IdRunEnd | content.js:64 | the greedy run of `[^/?]` characters ends at the end of the URL or at a `/` or `?` |
| Content.ExtractItemId | content.js:64-71 | None iff the expression matches nowhere; otherwise a non-empty id free of `/` and `?` |
| Content.ExtractItemIdLeftmost | content.js:64 | at the leftmost match the id is the whole id-character run after `/item/`, followed by the end of the URL, `/` or `?` |
| Content.ProbeAndSavePathsReadBack | content.js:128-141 | for an extracted id, the probe URL and the save path read back as photo directory or item folder, id and index |
| Content.DistinctIndicesDistinctPaths | content.js:128-141 | different indices are probed at different URLs and saved under different paths |
| Content.ProcessBatch | content.js:84-89 | a batch is empty iff it starts past index 40; it holds at most five entries and never reaches past index 40 |
| Content.ProcessBatchIndices | content.js:87-89 | entry `k` of a batch is index `start + k`, a success iff its probe answered `ok` |
| Content.RunBatches | content.js:84-105 | the loop runs at least one batch iff it starts at or before index 40 |
| Content.StatusLines | content.js:74-108 | the status shows the start text first, followed only by "downloading" lines, at most one per batch |
| Content.ProcessImage | content.js:127-149 | success iff the HEAD response is `ok`; a download request with the probe URL and save path iff success; an error message iff the fetch rejected |
| Content.CountsPartition | content.js:93-100 | every result is counted as exactly one of success or error |
| Content.CountsAppend | content.js:93-100 | tallies of consecutive batches add up |
| Content.RunBatchesStops | content.js:84-105 | the loop runs at least one batch from index 1; every batch but the last had fewer than three failures; the last had three or more or reached past 40 |
| Content.RunBatchesAt | content.js:84-89 | batch `t` covers the indices from `start + 5t` |
| Content.RunBatchesBound | content.js:84 | no batch starts past index 40 |
| Content.RunFromAppends | content.js:84-109 | continuing the loop from a batch start appends the remaining batches to those done |
| Content.AppendBatch | content.js:102-108 | a batch that does not stop the loop adds one status line with the running success total; a stopping batch adds none |
| Content.FinalStatus | content.js:112-119 | the closing status reports completion with the success count iff at least one image was found, and "not found" when none was |
| Content.ProbeBatch | content.js:87-89 | the inner loop yields processImage of indices `i` to `min(i+4, 40)`, in order |
| Content.Tally | content.js:93-100 | `forEach` adds the batch's successes and failures to the tallies |
| Content.DownloadBatches | content.js:76-119 | the batch loop produces exactly `RunBatches`, tallies equal to its successes and failures, and the status lines followed by the final status |
| Content.DownloadAllImages | content.js:60-124 | nothing happens iff no item id is found; otherwise the run is `DownloadBatches` for that id |
| Content.RunBatchesShape | content.js:84-89 | a run is one to eight batches, batch `t` starting at index `5t + 1` |
| Content.RunCoversPrefix | content.js:84-89 | the batches cover indices 1..5k once each, in order, each processed with its own probe outcome |
| Content.RunStopsAfterFirstFailingBatch | content.js:102-105 | the loop stops right after the first batch with at least three failures, or after eight batches |
| Content.TalliesCoverProcessed | content.js:93-100 | successes plus errors equal five per batch run |
| Content.RequestsMatchSuccessfulProbes | content.js:133-144 | index `t + 1` is requested iff its probe answered `ok`, with its probe URL and save path |
| DirectDownload.SaveFolder | background.js:147-148 | the save folder is the folder name when present and non-empty, and the item id otherwise |
| DirectDownload.InterruptedMessageParts | background.js:170 | an interruption rejects with the fixed text followed by the delta's error, or by the "unknown error" text when the error is absent or empty |
| DirectDownload.StepEventsShape | background.js:132-193 | each iteration reports its progress first; it requests the download under the URL's file name iff the fetch succeeded; it ends with a delay iff its attempt settles |
| DirectDownload.TraceFromStart | background.js:132-200 | the events from an iteration on begin with its progress report, or with `allDownloadsComplete` when no URL is left |
| DirectDownload.DirectFileNameReadsBack | background.js:147-151 | when the item id has no `/`, the file of URL `i` reads back as the folder name (the item id when absent or empty), the id and `i + 1` |
| DirectDownload.DirectFileNamesDistinct | background.js:147-151 | two URLs of one request never share a destination, whatever the item id and folder name |
| DirectDownload.DirectDownload | background.js:132-200 | the loop's events are `TraceFrom(0)`: per URL its iteration's events, stopping at an attempt that never settles, and `allDownloadsComplete` after the last URL |
| DirectDownloadProperties.DelayAfter | background.js:179-192 | the delay after a settled iteration is 5000 ms iff it saved the image and 10000 ms iff it failed |
| DirectDownloadProperties.SettledAll | background.js:132 | the loop gets through the whole list iff every attempt settles |
| DirectDownloadProperties.StepProgress | background.js:135-139 | every iteration reports progress `(i + 1, n)` exactly once |
| DirectDownloadProperties.StepErrors | background.js:182-189 | an iteration reports one error, with its index and the message of the error its attempt ended with, iff it settles with an error |
| DirectDownloadProperties.StepWaits | background.js:179-192 | an iteration waits exactly once iff it settles, for the delay its outcome calls for |
| DirectDownloadProperties.StepCompletions | background.js:132-194 | no iteration reports `allDownloadsComplete` |
| DirectDownloadProperties.StepRequests | background.js:141-158 | an iteration requests its download, under its own file name, iff its fetch succeeded |
| DirectDownloadProperties.StepRevokes | background.js:161-176 | an iteration removes its listener and revokes its object URL iff its download started and settled |
| DirectDownloadProperties.ProgressReports | background.js:135-139 | progress is reported as (1, n), (2, n), ... once per iteration begun; n times when every attempt settles, failures included |
| DirectDownloadProperties.ErrorReports | background.js:182-189 | the reports are exactly the settled iterations that failed, once each in ascending order, each carrying the message its attempt ended with |
| DirectDownloadProperties.DelayAfterEachUrl | background.js:179-192 | each settled iteration is followed by one delay: 5000 ms after a saved image, 10000 ms after a failure |
| DirectDownloadProperties.CompletionReportedOnce | background.js:196-200 | `allDownloadsComplete(true)` is sent once, as the last event, iff every attempt settles, even if all failed |
| DirectDownloadProperties.DownloadRequests | background.js:132-158 | the requested file names are exactly `DirectFileName` of the iterations begun whose fetch succeeded, once each, in ascending order |
| DirectDownloadProperties.ObjectUrlRevocations | background.js:161-176 | an object URL is revoked, together with the removal of its listener, iff its download started and a terminal delta arrived, once each in ascending order |
| Completion.Settle | background.js:74-100 | the listener removes itself, revokes the URL, bumps the counter matching the outcome and sends one message with it |
| Completion.Step | background.js:72-102 | a delta changes nothing unless the listener is registered and the delta is a terminal state of its download; then exactly one counter grows by one |
| Completion.Run | background.js:72-102 | over any delta sequence the counters never decrease and messages are only appended to the outbox |
| Completion.RunUnregistered | background.js:76-89 | a removed listener is never affected again |
| Completion.RunActsOnFirstTerminal | background.js:72-102 | a registered listener acts exactly once, on the first terminal delta for its download |
| Completion.CountersBumpedOnce | background.js:72-102 | over any delta sequence, counters never decrease and grow by at most one in total, one message at most is sent, a counter grows iff a terminal delta arrives, and success grows iff the first terminal delta is `complete` |
| Completion.Background.constructor | background.js:20-21 | both counters start at zero |
| Completion.Background.OnInstalled | background.js:207-212 | installation resets both counters and nothing else |
| Completion.Background.DownloadImage | background.js:51-116 | a failed fetch or a rejected download sends one failure message with the error's message and leaves the counters alone; a started download gets a fresh registered listener for its id |
| Completion.Listener.constructor | background.js:72 | a new listener is registered and has not revoked its URL |
| Completion.Listener.OnChanged | background.js:72-102 | delivering a delta changes the listener and the page exactly as `Step` says |

## Left out

- The DOM and UI are not modelled: the button, the status element, its removal timers, `alert`, and the MutationObserver. The status texts are modelled as `Status` values.
- Network, downloads API, tabs messaging and timers are not executed. Their outcomes are inputs (`Probe`, `Attempt`, `Launch`, delta sequences). Messages and delays are events or outbox entries.
- Logging and the `DEBUG` flag are not modelled; they have no observable effect on the model's state.
- The probes of a batch run concurrently under `Promise.all` in the source. The model issues them in index order. The results are the same because each probe depends only on its own index. The order in which a batch's `downloadImage` messages are sent is not modelled: the source sends them as the HEAD probes finish (content.js:132-142), while the model lists them in index order.
- `downloadAllImages`' catch-all error handler is not modelled. Nothing in the modelled loop throws.
- The queue, `MAX_CONCURRENT_DOWNLOADS`, `RETRY_ATTEMPTS` and `activeDownloads` (background.js:7-11) are not modelled. They are declared but never used.
- DirectDownload.DirectDownload: an attempt whose download never reaches a terminal state makes the source await forever. The model ends the trace there, so anything the page could observe later is not modelled.
- When `downloads.download` rejects, the source never revokes the object URL it created. The model shows this only as a missing `ObjectUrlRevoked` event; the memory it holds is not modelled.
- The `directDownload` listener ignores deltas of other downloads. The model feeds each attempt only the deltas delivered to its listener.
- The page sends `downloadImage` requests without waiting for them, and the page does not handle the `downloadComplete`, `downloadProgress`, `downloadError` and `allDownloadsComplete` messages. The model records them as outbox entries and events.
- The comment at content.js:102 speaks of three failures in a row. The code counts failures per batch, and the model follows the code (`RunStopsAfterFirstFailingBatch`).
- `fetchImageAsBinary` is reduced to the message of the error it throws (`FetchErrorMessage`). HTTP status codes are printed as decimals.
