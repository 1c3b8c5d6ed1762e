# cosmico-webinar in Dafny

This project models the sequential core of cosmico-webinar, a command-line tool that
downloads the recorded webinars (VODs) of an EventBrite organiser. The `download` command:

1. lists the organiser's future and past events page by page;
2. reads each event's structured content for StreamYard webinar URLs;
3. asks StreamYard about each webinar, registering first where the webinar requires it;
4. keeps the webinars whose VOD is still available;
5. puts them on a queue with one sentinel per download thread;
6. lets worker threads download each VOD to `<output>/<slug>.mp4`, with progress bars and a
   shared stop event.

The `get-streamyard-links` helper command repeats step 2 on its own.

Network, filesystem, clock and UI are parameters of the model:

- **HTTP.** The EventBrite and StreamYard sites are functions from request to answer, and
  each client records the requests it sends.
- **Downloads.** A download's HTTP response is a record: a length header, a status, the
  chunks and whether the stream breaks.
- **Files.** The filesystem is a map from path to bytes.
- **Progress bars.** A progress display is its task table.
- **Stop event.** The stop event another thread sets is a count of this worker's polls
  that come before it is set.
- **Slugs.** `slugify` is an uninterpreted function.

Modules:

- `Common`: Option, Result, bytes, chunk concatenation.
- `Crop`: `crop_string`.
- `Runtime`: the queue, progress display, stop event and disk the worker shares with the
  rest of the program.
- `Downloader`: the download worker, first as functions on a snapshot (`World`) of
  everything it touches (`DownloadSpec`, `RunFrom`), then as a class whose methods are
  proved to leave exactly the state those functions describe.
- `DownloaderLemmas`: what `download_file` and `run` guarantee.
- `EventBrite`: the EventBrite client and its pagination.
- `Helpers`: URL extraction from structured content.
- `StreamYard`: the StreamYard client, webinar ids and the registration payload.
- `DownloadCommand`: the loops of `cli` that build the URL list, the VOD list and the queue.

Two behaviours of the code matter for the proofs:

- A download the stop event cuts short returns normally, so overall progress advances for
  it (download.py:112-113 and 157-161).
- Every exception, an HTTP error status from `raise_for_status` included, clears
  `is_running`. That worker stops and does not advance overall progress
  (download.py:148-150).

## Model

| member | source | states |
|---|---|---|
| Crop.CropString | cosmico_webinar/commands/download.py:47-55 | definition of `crop_string` as written; its properties are CropFits, CropKeepsSuffix, CropBounded, CropAtEllipsisWidth and CropBelowEllipsisWidth |
| Crop.CropStringClamped | cosmico_webinar/commands/download.py:47-55 | definition of the corrected crop; its properties are ClampedCrop and ClampedAgrees |
| Crop.SliceFrom | cosmico_webinar/commands/download.py:51-53 | Python's `s[i:]` for any integer is a suffix of s: of length `len(s) - i` clamped to 0 for a non-negative i, and of length `-i` clamped to `len(s)` for a negative one |
| Crop.CropFits | cosmico_webinar/commands/download.py:49-55 | a string no longer than `N - len(ellipsis)` is returned unchanged |
| Crop.CropKeepsSuffix | cosmico_webinar/commands/download.py:49-53 | when `0 < N - len(ellipsis) < len(s)`, the result is exactly N long: the last `N - len(ellipsis)` characters with the ellipsis at the back (`end`) or the front |
| Crop.CropBounded | cosmico_webinar/commands/download.py:49-53 | when N exceeds the ellipsis width, the result is at most N long |
| Crop.CropAtEllipsisWidth | cosmico_webinar/commands/download.py:49-53 | when N equals the ellipsis width, `s[-0:]` is all of s: a non-empty s comes back whole with the ellipsis added |
| Crop.CropBelowEllipsisWidth | cosmico_webinar/commands/download.py:49-53 | when N is below the ellipsis width, the first `len(ellipsis) - N` characters are dropped, not the last ones kept |
| Crop.CropOverflowExample | cosmico_webinar/commands/download.py:47-55 | cropping "abcdef" to 1 character yields the 7 characters "…abcdef" |
| Crop.ClampedCrop | cosmico_webinar/commands/download.py:47-55 | the corrected crop is at most N long whenever N is at least the ellipsis width; it returns a fitting string unchanged; otherwise it keeps exactly the last `max(N - len(ellipsis), 0)` characters beside the ellipsis |
| Crop.ClampedAgrees | cosmico_webinar/commands/download.py:47-55 | when N exceeds the ellipsis width, the corrected crop and the crop as written give the same string |
| Downloader.Label | cosmico_webinar/commands/download.py:143 | definition of the progress label `crop_string(str(output_video), 20)`; its property is LabelIsCropped |
| Downloader.LabelIsCropped | cosmico_webinar/commands/download.py:143 | the progress label of a path is `crop_string(path, 20)`, agrees with the corrected crop and is at most 20 characters |
| Runtime.JobQueue.constructor | cosmico_webinar/commands/download.py:327 | a new queue is empty and has no unfinished tasks |
| Runtime.JobQueue.Put | cosmico_webinar/commands/download.py:329 | `put` appends the item and adds one unfinished task |
| Runtime.JobQueue.Get | cosmico_webinar/commands/download.py:128 | `get` removes and returns the first item; the unfinished count stays |
| Runtime.JobQueue.TaskDone | cosmico_webinar/commands/download.py:164 | `task_done` removes one unfinished task and leaves the items |
| Runtime.AdvanceBy | cosmico_webinar/commands/download.py:115 | advancing a task adds n to its completed count; every other task stays, and so does the set of ids |
| Runtime.AdvanceByTwice | cosmico_webinar/commands/download.py:115 | two advances of one task add up |
| Runtime.AdvanceByZero | cosmico_webinar/commands/download.py:158-161 | advancing by nothing changes nothing |
| Runtime.Progress.AddTask | cosmico_webinar/commands/download.py:84-88 | `add_task` hands out the next id, which is new, and stores a task with the given name and total and nothing completed |
| Runtime.Progress.SetTotal | cosmico_webinar/commands/download.py:106 | `update(total=…)` sets that task's total and nothing else |
| Runtime.Progress.Start | cosmico_webinar/commands/download.py:110 | `start_task` marks that task started and nothing else |
| Runtime.Progress.Advance | cosmico_webinar/commands/download.py:115 | `update(advance=n)` is AdvanceBy on the task table |
| Runtime.Progress.Remove | cosmico_webinar/commands/download.py:154 | `remove_task` deletes exactly that task |
| Runtime.StopEvent.constructor | cosmico_webinar/commands/download.py:62 | the stop event starts with no polls |
| Runtime.StopEvent.IsSet | cosmico_webinar/commands/download.py:112 | each `is_set()` is one poll; it answers true from the poll at which the other thread has set the event onwards |
| Runtime.Disk.Truncate | cosmico_webinar/commands/download.py:109 | `open(path, "wb")` creates or empties that one file |
| Runtime.Disk.Append | cosmico_webinar/commands/download.py:116 | `f.write(chunk)` appends the chunk to that one file |
| Downloader.QueueFor | cosmico_webinar/commands/download.py:327-334 | definition of the queue `cli` prepares: the entries, then one sentinel per thread; its properties are DownloadCommand.QueueForShape and DownloaderLemmas.QueueSteps |
| Downloader.Jobs | cosmico_webinar/commands/download.py:328-329 | one queue item per entry, in order |
| Downloader.Sentinels | cosmico_webinar/commands/download.py:332-334 | exactly k sentinels |
| Downloader.StopIndex | cosmico_webinar/commands/download.py:111-113 | the number of chunks streamed before the stop event is seen: every earlier poll found it clear, and if the count is short of all chunks, the next poll finds it set |
| Downloader.StreamSpec | cosmico_webinar/commands/download.py:109-116 | definition of the `open(..., "wb")` block and its chunk loop; its properties are in DownloaderLemmas.DownloadStreams |
| Downloader.RespondSpec | cosmico_webinar/commands/download.py:97-116 | definition of the part of `download_file` after the request: length, size skip, total, status, streaming; its properties are DownloadSkip, DownloadFailsEarly and DownloadStreams |
| Downloader.DownloadSpec | cosmico_webinar/commands/download.py:82-116 | `download_file` leaves the queue alone and registers its progress task under the next id, returned as `task_id` |
| Downloader.AfterJob | cosmico_webinar/commands/download.py:151-164 | definition of the `finally` block of a job; its properties are FinishJobTasks and FinishJobOverall |
| Downloader.FinishJob | cosmico_webinar/commands/download.py:135-164 | after a job the queue's items are unchanged, and the worker is still running exactly when the job raised no exception |
| Downloader.TurnSpec | cosmico_webinar/commands/download.py:119-164 | a pass that does not leave the loop keeps the worker running and shortens the queue |
| Downloader.TakeSpec | cosmico_webinar/commands/download.py:126-164 | the same, for a pass whose stop-event check found the event clear |
| Downloader.RunFrom | cosmico_webinar/commands/download.py:118-164 | definition of `run`, pass after pass; its properties are the DownloaderLemmas.Run lemmas and SentinelEndsRun |
| Downloader.TurnWhenClear | cosmico_webinar/commands/download.py:122-128 | a pass whose poll finds the stop event clear goes on to the `get` |
| Downloader.DownloaderWorker.constructor | cosmico_webinar/commands/download.py:66-80 | the worker holds the objects it is given, is running, and has no task id |
| Downloader.DownloaderWorker.DownloadFile | cosmico_webinar/commands/download.py:82-116 | `download_file` leaves the shared objects exactly as DownloadSpec says and ends as it says |
| Downloader.DownloaderWorker.Respond | cosmico_webinar/commands/download.py:97-116 | the body of the `with requests.get` block: the length check, the size skip, the total, `raise_for_status` and the streaming, as RespondSpec says |
| Downloader.DownloaderWorker.Stream | cosmico_webinar/commands/download.py:109-116 | the `open(…, "wb")` block empties the file, starts the task and streams, as StreamSpec says |
| Downloader.DownloaderWorker.Pump | cosmico_webinar/commands/download.py:111-116 | the chunk loop writes exactly the first StopIndex chunks, adds their total length to the task, polls once before each chunk, and reports whether it left early |
| Downloader.DownloaderWorker.HandleJob | cosmico_webinar/commands/download.py:135-164 | a dequeued entry is downloaded to `<output>/<slug>.mp4` with its cropped label, and the `finally` block follows, as FinishJob says |
| Downloader.DownloaderWorker.CleanUp | cosmico_webinar/commands/download.py:151-164 | the `finally` block removes the job's task, advances overall progress only if still running, and calls `task_done`, as AfterJob says |
| Downloader.DownloaderWorker.Pass | cosmico_webinar/commands/download.py:119-164 | one pass of the loop leaves the state TurnSpec gives |
| Downloader.DownloaderWorker.Take | cosmico_webinar/commands/download.py:126-164 | the `get` and what follows it leave the state TakeSpec gives |
| Downloader.DownloaderWorker.Run | cosmico_webinar/commands/download.py:118-164 | `run` leaves the state and takes the exit RunFrom gives |
| DownloaderLemmas.DownloadFrame | cosmico_webinar/commands/download.py:82-116 | a download changes only its own progress task (named by its label), `task_id`, the poll count and the file at its path |
| DownloaderLemmas.DownloadSkip | cosmico_webinar/commands/download.py:98-103 | a download is skipped exactly when the request succeeds, the length parses and the file already has that size (a missing length counts as 0), before the status is checked; a skip writes nothing |
| DownloaderLemmas.DownloadFailsEarly | cosmico_webinar/commands/download.py:91-108 | the connection, length and status failures happen exactly in their cases, and none of them writes or polls |
| DownloaderLemmas.DownloadStreams | cosmico_webinar/commands/download.py:106-116 | once streaming starts, the file holds exactly the chunks streamed before the stop event was seen. The task's total is the remote size and its count equals the bytes written. Cancellation happens exactly when the stop event cut the stream short. A stream that breaks after its last chunk fails |
| DownloaderLemmas.DownloadIdempotent | cosmico_webinar/commands/download.py:98-116 | downloading a completed file again, with a truthful length header, is skipped and leaves the files alone |
| DownloaderLemmas.FinishJobTasks | cosmico_webinar/commands/download.py:151-154 | the per-job progress task is created and removed again, so the task table is as before |
| DownloaderLemmas.FinishJobOverall | cosmico_webinar/commands/download.py:156-164 | overall progress advances by one exactly when the job raised no exception, and `task_done` is called once |
| DownloaderLemmas.TurnQueue | cosmico_webinar/commands/download.py:126-164 | a pass takes at most the first item, and calls `task_done` once per item taken |
| DownloaderLemmas.TurnExit | cosmico_webinar/commands/download.py:119-150 | a pass leaves the loop at a set stop event, an empty queue, a sentinel or an exception, each exactly in its case, and goes on exactly after a job that returned normally |
| DownloaderLemmas.TurnPolls | cosmico_webinar/commands/download.py:120-124 | every pass polls the stop event first, and a step taken records a poll that found it clear |
| DownloaderLemmas.TurnCounters | cosmico_webinar/commands/download.py:151-161 | one pass advances overall progress once per job that returned normally and leaves the download tasks as they were |
| DownloaderLemmas.RunDequeuesInOrder | cosmico_webinar/commands/download.py:119-128 | `run` takes items strictly from the front of the queue, in order |
| DownloaderLemmas.RunLeavesRest | cosmico_webinar/commands/download.py:128-164 | `run` leaves behind exactly the items it did not take and calls `task_done` once per item taken |
| DownloaderLemmas.RunEnds | cosmico_webinar/commands/download.py:118-133 | `run` does nothing for a worker that is not running; at its end the worker is still running only when it is stuck on an empty queue |
| DownloaderLemmas.RunDoneBeforeLast | cosmico_webinar/commands/download.py:119-150 | every job before the last step returned normally, and so did all of them when the stop event or an empty queue ended the run |
| DownloaderLemmas.RunLastStep | cosmico_webinar/commands/download.py:131-150 | the run ends at a sentinel exactly when its last step took one, and crashes exactly when its last job raised |
| DownloaderLemmas.RunPolls | cosmico_webinar/commands/download.py:119-124 | each step records its own, strictly increasing poll, each of which found the stop event clear; a run ended by the stop event saw it set at its last poll |
| DownloaderLemmas.RunCounters | cosmico_webinar/commands/download.py:151-161 | over a run, overall progress advances by exactly the number of jobs that returned normally, and the download tasks are as before |
| DownloaderLemmas.QueueSteps | cosmico_webinar/commands/download.py:327-334 | steps that take the prepared queue from the front and all return normally but the last one handle the entries in order, and go at most one step past them, onto a sentinel |
| DownloaderLemmas.SentinelEndsRun | cosmico_webinar/commands/download.py:118-164 | a worker on the prepared queue that is never told to stop ends at a sentinel or by an exception. At a sentinel it has handled every entry in order, left the other threads' sentinels, and advanced overall progress once per entry |
| EventBrite.Requested | cosmico_webinar/eventbrite.py:69-74 | `get_events` requests at least one page |
| EventBrite.ShowMores | cosmico_webinar/eventbrite.py:72 | the listing requests are for consecutive page numbers, with the same organiser, page size and type |
| EventBrite.Gathered | cosmico_webinar/eventbrite.py:65-76 | definition of what `get_events` returns; its property is GatheredConcatenates |
| EventBrite.EventsOf | cosmico_webinar/eventbrite.py:73 | the reference reading: the events of consecutive pages concatenated in page order |
| EventBrite.RequestedStopsAtFirstLast | cosmico_webinar/eventbrite.py:69-74 | the pages are requested consecutively and the loop stops right after the first page with no next page (or that raised) |
| EventBrite.GatheredConcatenates | cosmico_webinar/eventbrite.py:65-76 | the result is the in-order concatenation of every requested page's events, the last page's included, unless the last page raised |
| EventBrite.AllEvents | cosmico_webinar/eventbrite.py:84-88 | definition of what `get_all_events` returns; its property is AllEventsFutureThenPast |
| EventBrite.AllRequests | cosmico_webinar/eventbrite.py:84-88 | definition of the requests `get_all_events` sends: the future listing's, then the past one's unless the future one raised |
| EventBrite.AllEventsFutureThenPast | cosmico_webinar/eventbrite.py:84-88 | `get_all_events` succeeds exactly when both listings do, and returns every future event before every past one |
| EventBrite.Client.constructor | cosmico_webinar/eventbrite.py:23-31 | a new client has sent nothing |
| EventBrite.Client.GetShowmore | cosmico_webinar/eventbrite.py:36-53 | one listing request with the given organiser, page, page size and type; the site's answer or the raised error |
| EventBrite.Client.GetStructuredContent | cosmico_webinar/eventbrite.py:55-63 | one content request for the event; the site's answer or the raised error |
| EventBrite.Client.GetEvents | cosmico_webinar/eventbrite.py:65-76 | the loop sends exactly the Requested consecutive page requests and returns what the pages gather |
| EventBrite.Client.GetPastEvents | cosmico_webinar/eventbrite.py:78-79 | delegates with type `past` and the same page size |
| EventBrite.Client.GetFutureEvents | cosmico_webinar/eventbrite.py:81-82 | delegates with type `future` and the same page size |
| EventBrite.Client.GetAllEvents | cosmico_webinar/eventbrite.py:84-88 | sends the future listing's requests, then (unless that raised) the past one's, and returns AllEvents |
| Helpers.Scan | cosmico_webinar/commands/helpers.py:57-59 | definition of the module loop, a KeyError ending it; its property is ScanKeepsPrefix |
| Helpers.WebinarUrls | cosmico_webinar/commands/helpers.py:58-59 | the reference filter: the URLs of the webinar modules in order; its properties are WebinarUrlsMembers and WebinarUrlsAppend |
| Helpers.Links | cosmico_webinar/commands/helpers.py:51-63 | definition of the event loop's result; its properties are FailedEventContributesNothing, LinksAbort and LinksAppend |
| Helpers.ContentRequests | cosmico_webinar/commands/helpers.py:52-56 | definition of the content requests the event loop sends, up to the first unreadable event |
| Helpers.FirstBroken | cosmico_webinar/commands/helpers.py:57-59 | the first module whose keys are missing: all modules before it are readable |
| Helpers.ScanKeepsPrefix | cosmico_webinar/commands/helpers.py:56-63 | scanning a module list yields exactly the webinar URLs before the first module with a missing key, in module order, and raises KeyError exactly when there is such a module |
| Helpers.WebinarUrlsMembers | cosmico_webinar/commands/helpers.py:57-59 | a URL is collected exactly when some module of type `webinar` carries it |
| Helpers.WebinarUrlsAppend | cosmico_webinar/commands/helpers.py:57-59 | the filter keeps module order across concatenation |
| Helpers.FailedEventContributesNothing | cosmico_webinar/commands/helpers.py:55-61 | an event whose content request raised an HTTPError contributes nothing and the following events are still processed |
| Helpers.LinksAbort | cosmico_webinar/commands/helpers.py:52-53 | the command aborts exactly when some event lacks `id` or `name.text`, which are read outside the `try` |
| Helpers.LinksAppend | cosmico_webinar/commands/helpers.py:52-59 | URLs come out in event order |
| Helpers.ScanModules | cosmico_webinar/commands/helpers.py:57-59 | the module loop appends exactly the scan's URLs to the list and reports the scan's KeyError |
| Helpers.GetStreamyardLinks | cosmico_webinar/commands/helpers.py:51-63 | sends one content request per event up to the first unreadable one, and returns the Links of the events |
| StreamYard.WebinarId | cosmico_webinar/streamyard.py:34 | definition of `url.split("/")[-1]`; its properties are WebinarIdIsLastSegment and WebinarIdEdges |
| StreamYard.WebinarIdIsLastSegment | cosmico_webinar/streamyard.py:34 | the webinar id is the text after the last `/`, which holds no `/` |
| StreamYard.WebinarIdEdges | cosmico_webinar/streamyard.py:46 | a URL ending in `/` gives the empty id; a URL without `/` is its own id |
| StreamYard.FieldValues | cosmico_webinar/streamyard.py:50-61 | definition of `fields_values` after the field loop, or its KeyError; its properties are FieldValuesByKey and PrefixErrStays |
| StreamYard.LastValue | cosmico_webinar/streamyard.py:51-61 | the reference reading, key by key: the value of the last filled field with that id; its property is LastValueOnlyFilled |
| StreamYard.BuildRegistration | cosmico_webinar/streamyard.py:48-73 | definition of the registration payload; its properties are RegistrationUsesFirstDefinition and RegistrationIgnoresLaterDefinitions |
| StreamYard.FieldValuesByKey | cosmico_webinar/streamyard.py:50-61 | building the field values raises exactly when some field misses a key it is read for. Otherwise a key has a value exactly when a required email, first-name or last-name field has that id, and the last such field decides the value. Every other field is absent |
| StreamYard.LastValueOnlyFilled | cosmico_webinar/streamyard.py:52-61 | the reference reading gives a key a value exactly when some required field of one of the three filled types carries that id |
| StreamYard.RegistrationUsesFirstDefinition | cosmico_webinar/streamyard.py:48-73 | the payload uses the first definition's id and fields; its email and names are the arguments whatever the fields say, and its time zone is Europe/Rome |
| StreamYard.RegistrationIgnoresLaterDefinitions | cosmico_webinar/streamyard.py:48-49 | definitions after the first do not change the payload |
| StreamYard.PrefixErrStays | cosmico_webinar/streamyard.py:51-61 | a field that raises makes the whole field loop raise |
| StreamYard.InfoSpec | cosmico_webinar/streamyard.py:33-43 | definition of `get_webinar_info` on the client's state; its property is InfoRequests |
| StreamYard.RegisterSpec | cosmico_webinar/streamyard.py:45-76 | definition of `register_webinar` on the client's state: build the payload, post it, and a successful post registers; the payload's properties are on BuildRegistration |
| StreamYard.InfoRequests | cosmico_webinar/streamyard.py:33-43 | the landing GET is sent exactly when the `jwtOnAir` cookie is absent, and the API GET unless that landing GET raised; once held, the cookie stays |
| StreamYard.Client.constructor | cosmico_webinar/streamyard.py:19-28 | a new client has no cookie, is registered for nothing and has sent nothing |
| StreamYard.Client.GetWebinarInfo | cosmico_webinar/streamyard.py:33-43 | `get_webinar_info` sends and returns what InfoSpec says |
| StreamYard.Client.RegisterWebinar | cosmico_webinar/streamyard.py:45-76 | `register_webinar` fills the field map in a loop, then posts the payload, as RegisterSpec says |
| DownloadCommand.WebinarUrls | cosmico_webinar/commands/download.py:247-259 | the URL loop of `cli` sends one content request per event up to the first without an `id`, and returns Links without the name check |
| DownloadCommand.VodSpec | cosmico_webinar/commands/download.py:281-305 | definition of the `try` for one URL; its properties are VodOnlyFromAvailable and VodRegistersOnlyWhenEnabled |
| DownloadCommand.CollectFrom | cosmico_webinar/commands/download.py:279-305 | definition of the URL loop over the VOD list; its properties are CollectAppend and CollectAtMostOnePerUrl |
| DownloadCommand.VodOnlyFromAvailable | cosmico_webinar/commands/download.py:280-305 | an entry is kept for a URL only from API information for its webinar id that has a VOD URL and is not marked deleted; the entry carries that information's title, VOD URL and poster |
| DownloadCommand.InfoPostsNothing | cosmico_webinar/streamyard.py:33-43 | fetching the information only extends the requests, with no registration among them |
| DownloadCommand.VodRegistersOnlyWhenEnabled | cosmico_webinar/commands/download.py:283-288 | a registration is posted for a URL exactly when the first information says `isRegistrationEnabled` is `true` and the form can be filled in |
| DownloadCommand.CollectAppend | cosmico_webinar/commands/download.py:279-305 | the VOD list keeps URL order: the entries for a concatenation of URL lists are the first list's followed by the second's |
| DownloadCommand.CollectAtMostOnePerUrl | cosmico_webinar/commands/download.py:279-305 | at most one entry per URL |
| DownloadCommand.FetchVod | cosmico_webinar/commands/download.py:281-305 | the `try` for one URL: fetch, register and fetch again where enabled, keep the entry if usable, as VodSpec says |
| DownloadCommand.CollectVods | cosmico_webinar/commands/download.py:279-305 | the URL loop appends exactly the entries CollectFrom gives and leaves the client as it says |
| DownloadCommand.QueueForShape | cosmico_webinar/commands/download.py:327-334 | the queue holds every entry in order, then exactly `threads` sentinels (none for a non-positive count), and nothing else |
| DownloadCommand.PrepareQueue | cosmico_webinar/commands/download.py:327-334 | the puts build a new queue holding QueueFor, with one unfinished task per item |
| DownloadCommand.Cli | cosmico_webinar/commands/download.py:230-334 | `cli` succeeds exactly when the listing and the URL loop do. Its URLs, VOD entries and queue are then those of the second listing, taken by a new StreamYard client. The queue has one unfinished task per item, and EventBrite receives both listings' requests, then the content requests of the second listing's events |

## Left out

- Threads: `Thread.start`, `join`, several workers sharing the queue, `KeyboardInterrupt` and
  cross-thread visibility of the stop event are concurrency. One worker is modelled at a
  time, and the thread that sets the stop event is a poll count.
- HTTP, JSON and sessions: headers, proxies, certificate checks and cookies other than
  `jwtOnAir` are left out. So are JSON decoding errors and the response bodies beyond the
  keys the program reads. Network exceptions other than an error status are left out too,
  except the download request, whose failure is a case of its own.
- Rich UI: `Live`, `Panel`, console printing, logging and the generic and overall progress
  updates of `cli` (task descriptions, step counters) are output only.
- `slugify` is an external library and stays uninterpreted.
- Filesystem: `mkdir` of the output directory and failures of `exists`, `stat` or `open`
  are not modelled. `cli` ignores its `--output` option, and the model takes the output
  directory as a parameter.
- The commented-out poster download and `queue.join()` are dead code.
- `__main__.py`, the Click option wiring, the `ORG_ID` constant and the default page sizes
  are configuration. The organiser and the page size are parameters.
- EventBrite.Site: a site is a finite list of answers per listing, followed by an empty last
  page. A server that always reports a next page, on which `get_events` would loop forever,
  is not modelled.
- StreamYard.Site: only the landing page can set the `jwtOnAir` cookie. Registering adds
  the webinar to what the client is registered for, and the API's answer may depend on that.
- JSON values are modelled by whether a key is present. A JSON `null` where a boolean is
  expected, or a `data` value that is not an object, is not modelled.
- DownloadCommand.Cli stops before the workers start; a worker's run is DownloaderLemmas.SentinelEndsRun.
- Downloader.DownloaderWorker.Run: a `get` on an empty queue blocks forever in the program.
  The model returns `Blocked` instead.

## Findings

| source | as written | input that shows it | evidently intended | confidence | as-written member | corrected member |
|---|---|---|---|---|---|---|
| cosmico_webinar/commands/download.py:47-55 | `crop_string` keeps `s[-(N - len(ellipsis)):]`; when N equals the ellipsis width this is `s[-0:]`, all of s, and when N is smaller the slice start is positive and drops the first characters | `crop_string("abcdef", 1)` returns "…abcdef", 7 characters | keep the last `max(N - len(ellipsis), 0)` characters, so the result never exceeds N once N leaves room for the ellipsis | not executed | Crop.CropOverflowExample | Crop.CropStringClamped |

The only call site, with N = 20, is not affected: Crop.ClampedAgrees and
Downloader.LabelIsCropped show that both crops agree there. The worker's label uses the
corrected crop.
