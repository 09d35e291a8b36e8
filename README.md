# Emotobooth upload client, modelled in Dafny

The photobooth's unattended client (`client/app.js`) watches the folder `in/`
for new photos and pushes one upload job per photo onto a queue that runs one
job at a time (concurrency 1, auto-start). Each job posts the photo to the
booth's server and classifies the reply. A reply body of exactly
`OK, photo received.` counts as a success: `processed` goes up and the photo
is deleted with `fs.unlinkSync`. Any other reply counts as a failure:
`failed` goes up and the photo stays. The job's completion callback then
frees the queue for the next photo. When both Twilio credentials are set, a
timer sends a status message with the two totals every 30 minutes.

The model has these files:

- `wrappers.dfy`: `Option`.
- `paths.dfy`: path resolution against the watched folder, base names, and the `.DS_Store` ignore rule.
- `response.dfy`: the success sentinel and the exact-match classification.
- `counters.dfy`: the two totals, read as counts over the history of classified replies.
- `status.dfy`: the status-message text, a parser that reads the totals back from it, and the environment gate.
- `client.dfy`: class `Client`, which holds the queue of waiting jobs, the single in-flight slot, the set of files in the folder, the two totals and a `stalled` flag.
  - Ghost fields record every job pushed, every job started and every reply classified.
  - `Valid()` is the object invariant. Jobs start in push order. At most one job runs. No job waits while the slot is free (auto-start). The totals count the replies.
  - The lemma `Accounting` derives from `Valid()` that `processed + failed` equals the number of completed jobs, plus one if a delete threw.
  - Each event is a method whose postconditions state the whole new state: `Watch`/`Add` (the watcher's 'add' event), `Start` (the queue's own start), `Complete` (the reply arrives) and `Tick` (one timer firing).

Two details of the code that the model keeps:

- Notifier gate: `client/app.js:66` tests JavaScript truthiness, so an unset or empty `TWILLIO_SID` or `TWILLIO_TOKEN` disables the notifier. `Status.NotifierEnabled` requires each value to be set and non-empty.
- Failed delete: `processed` is already raised when `fs.unlinkSync` throws, and `callback()` (`client/app.js:40`) is never reached. `Client.Complete` returns `DeleteThrew`, keeps the job in the slot, sets `stalled`, and no later job starts. The delete throws when the file is no longer in the folder, or when the system refuses it (the `unlinkDenied` input).

## Model

| member | source | states |
|---|---|---|
| Paths.Resolve | client/app.js:55 | the resolved job path is absolute when the folder is; an absolute name resolves to itself; a relative one is the folder, then '/', then the name |
| Paths.BaseName | client/app.js:32-36 | the base name is the suffix of the path after its last '/', and it holds no '/' |
| Paths.IsIgnored | client/app.js:50 | the watcher skips a file whose base name is `.DS_Store` |
| Paths.BaseNameIff | client/app.js:50 | a slash-free name is a path's base name exactly when the path is that name or ends in '/' and that name |
| Paths.IgnoredIffSuffix | client/app.js:50 | a path is ignored by the watcher exactly when it is `.DS_Store` or ends in `/.DS_Store` |
| Response.IsSuccess | client/app.js:31 | a reply succeeds exactly when its body is present and equal to `OK, photo received.` |
| Response.MissingBodyFails | client/app.js:31 | a reply without a body (transport failure) is a failure |
| Response.NearMissesFail | client/app.js:31 | missing period, lower case, trailing space and empty body all fail; the exact sentinel succeeds |
| Counters.CountsPartition | client/app.js:20-21 | every classified reply is counted once, so `processed + failed` is the number of replies |
| Counters.CountsAppend | client/app.js:31-38 | one more reply raises exactly one total by one: `processed` on success, `failed` otherwise |
| Counters.CountsMonotone | client/app.js:20-21 | neither total ever decreases as replies accumulate |
| Status.StatusBody | client/app.js:73 | the status text: header, success total, separator, failure total, each total as a decimal numeral |
| Status.NotifierEnabled | client/app.js:66 | the notifier runs only when `TWILLIO_SID` and `TWILLIO_TOKEN` are both set and non-empty |
| Status.DecimalString | client/app.js:73 | a total is printed as a canonical decimal numeral (digits only, no leading zero) |
| Status.DecimalRoundTrip | client/app.js:73 | the printed numeral reads back as the same total |
| Status.CanonicalRoundTrip | client/app.js:73 | printing the value of a canonical numeral gives that numeral back |
| Status.TakeDigits | client/app.js:73 | the digit run at the start of the text, maximal |
| Status.TakeDigitsOfAppend | client/app.js:73 | a total's digits end where the separator text begins |
| Status.StatusRoundTrip | client/app.js:73 | the status body reports the current totals: both are recovered from it exactly |
| Status.ParseStatusSound | client/app.js:73 | any text read as a status message is the message for the totals read from it (the converse of the round trip) |
| Status.ParseTotalsSound | client/app.js:73 | the text after the header reads back to two totals only when it is exactly their numerals around the separator |
| Status.StatusBodyInjective | client/app.js:73 | different totals never give the same status message |
| UploadClient.Client.constructor | client/app.js:15-21 | start-up: watched folder `in` resolved, queue empty, slot free, totals zero, notifier gated on the environment |
| UploadClient.Client.Start | client/app.js:15-18 | with the slot free, the oldest waiting job starts, and it becomes the only running job; otherwise nothing changes |
| UploadClient.Client.Add | client/app.js:53-62 | each 'add' event pushes exactly one job for the resolved path at the back of the queue; it starts at once when nothing is running; folder and totals unchanged |
| UploadClient.Client.Watch | client/app.js:48-53 | a new file joins the folder; it is pushed as a job unless it is `.DS_Store` |
| UploadClient.Client.Complete | client/app.js:29-40 | success raises `processed` only and removes exactly that file; any other body raises `failed` only and leaves the folder alone; the callback then frees the slot and the next job in FIFO order starts; if the delete throws, the slot stays occupied and the queue stalls |
| UploadClient.Client.Callback | client/app.js:15-18 | the completion callback frees the slot and the next waiting job in FIFO order starts; folder, totals and replies unchanged |
| UploadClient.Client.Accounting | client/app.js:31-40 | `processed + failed` equals the number of jobs whose callback ran, plus one when a delete threw |
| UploadClient.Client.Tick | client/app.js:70-83 | nothing is sent when the notifier is off; otherwise the message reports the current `processed` and `failed` |
| UploadClient.TwoPhotoScenario | client/app.js:23-62 | two photos, first accepted and second rejected: the first is deleted before the second starts, the second stays, each total is 1, and without credentials no status message is sent |

## Left out

- The HTTP upload (unirest multipart POST with the fixed credentials and the `photo` field, `client/app.js:25-29`). The model takes the reply body as an input of `Complete`, with `None` for a transport failure.
- JavaScript loose equality (`==`) on a body that is not a string. The model treats the body as a string or as absent.
- winston logging (`client/app.js:9-13`, `32`, `36`, `59`, `78-80`). Its only effect is output.
- chokidar's event sources: the recursion depth of 1, initial-scan events (`ignoreInitial: false`) and the glob semantics of its `ignored` option. The model has one `Watch` event per file and matches the ignore rule on the base name.
- Paths.Resolve: does not model `path.resolve`'s normalisation (`.`, `..`, repeated or trailing '/'). The watcher reports absolute paths, and the model resolves those to themselves. Because trailing '/' is not stripped, `Paths.BaseName` of a path ending in '/' is empty, where Node's `path.basename` would give the last segment; the watcher never reports such a path.
- The totals' number format: in JavaScript `processed` and `failed` are floating-point numbers, so `+= 1` stops changing them at 2^53 and `${n}` switches to exponent notation from 1e21. The model uses unbounded naturals printed as plain numerals.
- The Twilio client, the `to`/`from` numbers and the send-error callback (`client/app.js:68`, `72-81`). Send failures do not touch the modelled state.
- The `setInterval` timer (`client/app.js:70`, `83`). `Tick` models one firing; the 30-minute period is not modelled.
- What happens after a delete throws. Depending on handlers outside this file, the exception may end the process. The model only records that the callback is not reached, so the running job holds the slot for good.
- The rest of the repository: the browser canvas and animation code under `site/ui/` and the PhantomJS render script `site/scripts/phantomChildProcess.js`. They have no modellable logic beyond pixels and I/O.
