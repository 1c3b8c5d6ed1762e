/** `DownloaderWorker` (cosmico_webinar/commands/download.py): one worker thread that takes
    entries off the shared queue, downloads each VOD to `<output>/<slug>.mp4`, and stops at a
    sentinel, at the stop event, or after any exception.

    The worker is modelled one thread at a time. Its behaviour is first given as functions on
    a snapshot of everything it touches (`World`): `DownloadSpec` for `download_file` and
    `RunFrom` for `run`. The class `DownloaderWorker` then implements both step by step over
    the shared objects, and each method is proved to leave exactly the state the function
    describes. */
module Downloader {
  import opened Common
  import opened Crop
  import opened Runtime

  /** A `VideoEntry`: the title the file name is derived from, the VOD url, the poster url. */
  datatype Entry = Entry(title: string, url: string, poster: string)

  /** What the queue holds: an entry to download, or the end-of-work sentinel. */
  datatype Item = Job(entry: Entry) | Sentinel

  /** The queue `cli` prepares: every entry in order, then one sentinel per thread
      (`range(threads)` is empty for a non-positive count). */
  function QueueFor(vods: seq<Entry>, threads: int): seq<Item>
  {
    Jobs(vods) + Sentinels(if threads > 0 then threads else 0)
  }

  function Jobs(vods: seq<Entry>): (r: seq<Item>)
    ensures |r| == |vods|
    ensures forall i :: 0 <= i < |vods| ==> r[i] == Job(vods[i])
  {
    if vods == [] then [] else Jobs(vods[..|vods| - 1]) + [Job(vods[|vods| - 1])]
  }

  function Sentinels(k: nat): (r: seq<Item>)
    ensures |r| == k
    ensures forall i :: 0 <= i < k ==> r[i] == Sentinel
  {
    if k == 0 then [] else Sentinels(k - 1) + [Sentinel]
  }

  /** The `Content-Length` header: missing, an integer, or text `int()` rejects. */
  datatype ContentLength = Absent | Header(value: int) | Unparsable

  /** The streamed response to one GET: its length header, whether `raise_for_status` passes,
      the chunks `iter_content` yields, and whether the stream then breaks (raises) instead of
      ending. */
  datatype Response = Response(length: ContentLength, ok: bool, chunks: seq<seq<uint8>>, breaksAfter: bool)

  /** The size the code compares against: the header's value, 0 if it is missing. */
  function RemoteSize(length: ContentLength): int
    requires !length.Unparsable?
  {
    if length.Header? then length.value else 0
  }

  /** The exception that ends a job: the request failed, `int()` failed on the header,
      `raise_for_status` raised, or the stream raised. */
  datatype Cause = ConnectionFailed | BadContentLength | HttpStatus | StreamBroken

  /** How `download_file` ended: three ways of returning normally, or an exception. */
  datatype JobEnd = Skipped | Completed | Cancelled | Failed(cause: Cause)

  /** Everything one worker depends on but never changes: the output directory, the slug
      function (the `slugify` library, left uninterpreted), the responses the network gives
      per url (a url that is missing has its request fail), when the stop event is set, and
      the id of the overall progress task. */
  datatype Env = Env(output: string, slugify: string -> string, web: map<string, Response>,
                     stopAfter: Option<nat>, overallTask: nat)

  /** A snapshot of what the worker changes: the queue (items and unfinished count), the
      per-file progress tasks, the overall progress tasks, the files on disk, how often it has
      polled the stop event, and its own `is_running` and `task_id` fields. */
  datatype World = World(
    items: seq<Item>, unfinished: int,
    tasks: map<nat, Task>, nextId: nat,
    overall: map<nat, Task>, overallNext: nat,
    files: map<string, seq<uint8>>, polls: nat,
    running: bool, taskId: Option<nat>)

  /** `self.output / f"{slugify(title)}.mp4"`. */
  function TargetPath(e: Env, entry: Entry): string
  {
    e.output + "/" + e.slugify(entry.title) + ".mp4"
  }

  /** The progress label, `crop_string(str(output_video), 20)`: a path longer than 19
      characters is shown as the ellipsis followed by its last 19 characters. */
  function Label(path: string): string
  {
    if |path| > 20 - |Ellipsis| then Ellipsis + Last(path, 20 - |Ellipsis|) else path
  }

  /** The label is what `crop_string` returns for N = 20, and is at most 20 characters long. */
  lemma LabelIsCropped(path: string)
    ensures Label(path) == CropString(path, 20, Ellipsis, false)
    ensures Label(path) == CropStringClamped(path, 20, Ellipsis, false)
    ensures |Label(path)| <= 20
  {
    LastIsSuffix(path, 20 - |Ellipsis|);
    ClampedAgrees(path, 20, Ellipsis, false);
  }

  /** The number of chunks streamed before the stop event is seen: the stop event is polled
      once before each chunk, the k-th poll being poll number `polls + k`. */
  function StopIndex(after: Option<nat>, polls: nat, n: nat): (k: nat)
    ensures k <= n
    ensures forall p :: polls <= p < polls + k ==> !SetAt(after, p)
    ensures k < n ==> SetAt(after, polls + k)
  {
    match after
    case None => n
    case Some(t) => if t <= polls then 0 else if t - polls < n then t - polls else n
  }

  datatype Download = Download(world: World, end: JobEnd)

  /** `self.task_id = self.progress.add_task("", start=False, filename=label)`. */
  function Registered(w: World, caption: string): World
  {
    w.(tasks := w.tasks[w.nextId := Task(caption, DefaultTotal, 0, false)],
       nextId := w.nextId + 1, taskId := Some(w.nextId))
  }

  /** The download tasks once the first k chunks have been counted on the started task `id`. */
  function StreamedTasks(tasks: map<nat, Task>, id: nat, chunks: seq<seq<uint8>>, k: nat): map<nat, Task>
    requires id in tasks && k <= |chunks|
  {
    AdvanceBy(tasks[id := tasks[id].(started := true)], id, TotalLength(chunks[..k]))
  }

  /** The state after the first k chunks have been counted on task `id` and written to the
      freshly emptied file at `path`, with the stop event polled `polls` times in all. */
  function Streamed(w: World, id: nat, chunks: seq<seq<uint8>>, path: string, k: nat, polls: nat): World
    requires id in w.tasks && k <= |chunks|
  {
    w.(files := w.files[path := Flatten(chunks[..k])], tasks := StreamedTasks(w.tasks, id, chunks, k), polls := polls)
  }

  /** One more chunk: its bytes follow the earlier ones and its length adds to their count. */
  lemma PrefixNext(chunks: seq<seq<uint8>>, k: nat)
    requires k < |chunks|
    ensures Flatten(chunks[..k + 1]) == Flatten(chunks[..k]) + chunks[k]
    ensures TotalLength(chunks[..k + 1]) == TotalLength(chunks[..k]) + |chunks[k]|
  {
    assert chunks[..k + 1][..k] == chunks[..k];
  }

  /** The streaming part of `download_file`, once the response has passed `raise_for_status`:
      `open(path, "wb")` empties the file, task `id` is started, and each chunk is preceded by
      a poll of the stop event, then counted on the task and appended to the file. */
  function StreamSpec(e: Env, w: World, id: nat, r: Response, path: string): Download
    requires id in w.tasks
  {
    var n := StopIndex(e.stopAfter, w.polls, |r.chunks|);
    var cancelled := n < |r.chunks|;
    Download(Streamed(w, id, r.chunks, path, n, if cancelled then w.polls + n + 1 else w.polls + n),
             if cancelled then Cancelled else if r.breaksAfter then Failed(StreamBroken) else Completed)
  }

  /** What `download_file` does with the response `r` to its request: read the length
      (raising if it is not a number), skip when a file of that size is already there, set
      the task's total, raise on an error status, stream. */
  function RespondSpec(e: Env, w: World, id: nat, r: Response, path: string): Download
    requires id in w.tasks
  {
    if r.length.Unparsable? then Download(w, Failed(BadContentLength))
    else
      var remote := RemoteSize(r.length);
      if path in w.files && |w.files[path]| == remote then Download(w, Skipped)
      else
        var w' := w.(tasks := w.tasks[id := w.tasks[id].(total := remote)]);
        if !r.ok then Download(w', Failed(HttpStatus))
        else StreamSpec(e, w', id, r, path)
  }

  /** `download_file(url, label, path)`: registers a progress task, requests the url and
      handles the response. Only the file at `path`, the download tasks, the poll count and
      `task_id` change. */
  function DownloadSpec(e: Env, w: World, url: string, caption: string, path: string): (d: Download)
    ensures d.world.items == w.items && d.world.unfinished == w.unfinished
    ensures d.world.taskId == Some(w.nextId) && w.nextId in d.world.tasks
  {
    var w1 := Registered(w, caption);
    if url !in e.web then Download(w1, Failed(ConnectionFailed))
    else RespondSpec(e, w1, w.nextId, e.web[url], path)
  }

  /** The `finally` block after a job: remove the job's progress task if one was created,
      advance the overall progress if the worker is still running (an exception cleared
      `is_running`), and call `task_done`. */
  function AfterJob(e: Env, w: World, end: JobEnd): World
  {
    var running := !end.Failed?;
    w.(running := running,
       tasks := if w.taskId.Some? then w.tasks - {w.taskId.value} else w.tasks,
       overall := if running then AdvanceBy(w.overall, e.overallTask, 1) else w.overall,
       unfinished := w.unfinished - 1)
  }

  /** The body of the `try` for a dequeued entry, with its `finally`. */
  function FinishJob(e: Env, w: World, entry: Entry): (d: Download)
    ensures d.world.items == w.items && d.world.running == !d.end.Failed?
  {
    var path := TargetPath(e, entry);
    var d := DownloadSpec(e, w, entry.url, Label(path), path);
    Download(AfterJob(e, d.world, d.end), d.end)
  }

  /** One pass of the loop in `run`, seen from outside: the poll that preceded the `get`, and
      what the `get` returned and how it was handled. */
  datatype Step = Stopping(checkedAt: nat) | Processed(checkedAt: nat, entry: Entry, end: JobEnd)

  /** How `run` ended: the loop was never entered, the stop event was set at the top of the
      loop, a sentinel was taken, an exception stopped the worker, or the queue was empty (in
      the program `get` then blocks for good). */
  datatype Exit = NotRunning | StopSeen | SentinelSeen | Crashed | Blocked

  /** One pass of the loop body: the new state, what was dequeued, and the exit taken, if the
      pass left the loop. */
  datatype Turn = Turn(world: World, steps: seq<Step>, exit: Option<Exit>)

  /** One pass of `while self.is_running`: clear `task_id`, leave if the stop event is set,
      otherwise take the next item. */
  function TurnSpec(e: Env, w: World): (t: Turn)
    ensures t.exit.None? ==> t.world.running && |t.world.items| < |w.items|
  {
    if SetAt(e.stopAfter, w.polls) then Turn(Polled(w).(running := false), [], Some(StopSeen))
    else TakeSpec(e, Polled(w), w.polls)
  }

  /** The state after `task_id` is cleared and the stop event polled once more. */
  function Polled(w: World): World
  {
    w.(taskId := None, polls := w.polls + 1)
  }

  /** The rest of a pass once the poll at `checkedAt` found the stop event clear: take the
      next item, stop at a sentinel (its `finally` only calls `task_done`), otherwise process
      the entry; an exception clears `is_running` and so ends the loop. */
  function TakeSpec(e: Env, w: World, checkedAt: nat): (t: Turn)
    ensures t.exit.None? ==> t.world.running && |t.world.items| < |w.items|
  {
    if w.items == [] then Turn(w, [], Some(Blocked))
    else
      var w1 := w.(items := w.items[1..]);
      match w.items[0]
      case Sentinel =>
        Turn(w1.(running := false, unfinished := w1.unfinished - 1), [Stopping(checkedAt)], Some(SentinelSeen))
      case Job(entry) =>
        var d := FinishJob(e, w1, entry);
        Turn(d.world, [Processed(checkedAt, entry, d.end)], if d.end.Failed? then Some(Crashed) else None)
  }

  /** A pass whose poll finds the stop event clear goes on to take an item. */
  lemma TurnWhenClear(e: Env, w: World)
    requires !SetAt(e.stopAfter, w.polls)
    ensures TurnSpec(e, w) == TakeSpec(e, Polled(w), w.polls)
  {
  }

  datatype RunResult = RunResult(world: World, steps: seq<Step>, exit: Exit)

  /** `run()`: loop while `is_running`, pass after pass. */
  function RunFrom(e: Env, w: World): RunResult
    decreases |w.items|
  {
    if !w.running then RunResult(w, [], NotRunning)
    else
      var t := TurnSpec(e, w);
      if t.exit.Some? then RunResult(t.world, t.steps, t.exit.value)
      else
        var rest := RunFrom(e, t.world);
        RunResult(rest.world, t.steps + rest.steps, rest.exit)
  }

  /** `DownloaderWorker`: the shared objects it was given, and its own `is_running` and
      `task_id` fields (`None` stands for both "not set yet" and `None`, which the `finally`
      block treats alike). */
  class DownloaderWorker {
    const queue: JobQueue<Item>
    const output: string
    const progress: Progress
    const overall: Progress
    const overallTask: nat
    const stop: StopEvent
    const disk: Disk
    const web: map<string, Response>
    const slugify: string -> string
    var isRunning: bool
    var taskId: Option<nat>

    /** The overall bar is a different display from the per-file one and holds its task; the
        queue has had at least as many puts as it holds items. */
    ghost predicate Valid()
      reads this, queue, progress, overall
    {
      && progress != overall
      && progress.Valid() && overall.Valid()
      && queue.unfinished >= |queue.items|
      && overallTask in overall.tasks
    }

    function Environment(): Env
    {
      Env(output, slugify, web, stop.setAfter, overallTask)
    }

    function Snap(): World
      reads this, queue, progress, overall, stop, disk
    {
      World(queue.items, queue.unfinished, progress.tasks, progress.nextId,
            overall.tasks, overall.nextId, disk.files, stop.polls, isRunning, taskId)
    }

    constructor (queue: JobQueue<Item>, output: string, progress: Progress, overall: Progress,
                 overallTask: nat, stop: StopEvent, disk: Disk,
                 web: map<string, Response>, slugify: string -> string)
      ensures this.queue == queue && this.output == output && this.progress == progress
      ensures this.overall == overall && this.overallTask == overallTask && this.stop == stop
      ensures this.disk == disk && this.web == web && this.slugify == slugify
      ensures isRunning && taskId == None
    {
      this.queue := queue;
      this.output := output;
      this.progress := progress;
      this.overall := overall;
      this.overallTask := overallTask;
      this.stop := stop;
      this.disk := disk;
      this.web := web;
      this.slugify := slugify;
      isRunning := true;
      taskId := None;
    }

    /** `download_file`; an exception is returned as `Failed`. */
    method DownloadFile(url: string, caption: string, path: string) returns (end: JobEnd)
      requires Valid()
      modifies this, progress, disk, stop
      ensures Valid()
      ensures Snap() == DownloadSpec(Environment(), old(Snap()), url, caption, path).world
      ensures end == DownloadSpec(Environment(), old(Snap()), url, caption, path).end
    {
      var id := progress.AddTask(caption, DefaultTotal, false);
      taskId := Some(id);
      if url !in web {
        return Failed(ConnectionFailed);
      }
      end := Respond(id, web[url], path);
    }

    /** The part of `download_file` inside `with requests.get(...) as r`. */
    method Respond(id: nat, r: Response, path: string) returns (end: JobEnd)
      requires Valid() && id in progress.tasks
      modifies progress, disk, stop
      ensures Valid()
      ensures Snap() == RespondSpec(Environment(), old(Snap()), id, r, path).world
      ensures end == RespondSpec(Environment(), old(Snap()), id, r, path).end
    {
      if r.length.Unparsable? {
        return Failed(BadContentLength);
      }
      var remote := RemoteSize(r.length);
      if path in disk.files && |disk.files[path]| == remote {
        return Skipped;
      }
      progress.SetTotal(id, remote);
      if !r.ok {
        return Failed(HttpStatus);
      }
      end := Stream(id, r, path);
    }

    /** The `with open(local_file, "wb")` block of `download_file`. */
    method Stream(id: nat, r: Response, path: string) returns (end: JobEnd)
      requires Valid() && id in progress.tasks
      modifies progress, disk, stop
      ensures Valid()
      ensures Snap() == StreamSpec(Environment(), old(Snap()), id, r, path).world
      ensures end == StreamSpec(Environment(), old(Snap()), id, r, path).end
    {
      ghost var w := Snap();
      disk.Truncate(path);
      progress.Start(id);
      var k, cancelled := Pump(id, r.chunks, path);
      end := if cancelled then Cancelled else if r.breaksAfter then Failed(StreamBroken) else Completed;
      assert [] + Flatten(r.chunks[..k]) == Flatten(r.chunks[..k]);
      assert disk.files == w.files[path := Flatten(r.chunks[..k])];
      assert progress.tasks == StreamedTasks(w.tasks, id, r.chunks, k);
      assert queue.items == w.items && queue.unfinished == w.unfinished;
      assert overall.tasks == w.overall && overall.nextId == w.overallNext;
      assert isRunning == w.running && taskId == w.taskId && progress.nextId == w.nextId;
      assert Snap() == Streamed(w, id, r.chunks, path, k, stop.polls);
      assert StreamSpec(Environment(), w, id, r, path) == Download(Snap(), end);
    }

    /** The `for chunk in r.iter_content(...)` loop: poll the stop event before each chunk,
        leave at once if it is set, otherwise count the chunk on task `id` and append it to
        the file. Returns how many chunks were written and whether the loop was left early. */
    method Pump(id: nat, chunks: seq<seq<uint8>>, path: string) returns (k: nat, cancelled: bool)
      requires progress.Valid() && id in progress.tasks && path in disk.files
      modifies progress, disk, stop
      ensures progress.Valid() && progress.nextId == old(progress.nextId)
      ensures k == StopIndex(stop.setAfter, old(stop.polls), |chunks|) && cancelled == (k < |chunks|)
      ensures progress.tasks == AdvanceBy(old(progress.tasks), id, TotalLength(chunks[..k]))
      ensures disk.files == old(disk.files)[path := old(disk.files)[path] + Flatten(chunks[..k])]
      ensures stop.polls == old(stop.polls) + (if cancelled then k + 1 else k)
    {
      ghost var n := StopIndex(stop.setAfter, stop.polls, |chunks|);
      ghost var tasks, files, polls := progress.tasks, disk.files, stop.polls;
      k := 0;
      assert chunks[..0] == [] && files[path] + [] == files[path];
      while k < |chunks|
        invariant k <= n
        invariant progress.Valid() && progress.nextId == old(progress.nextId)
        invariant progress.tasks == AdvanceBy(tasks, id, TotalLength(chunks[..k]))
        invariant disk.files == files[path := files[path] + Flatten(chunks[..k])]
        invariant stop.polls == polls + k
      {
        var stopNow := stop.IsSet();
        if stopNow {
          return k, true;
        }
        PrefixNext(chunks, k);
        assert files[path] + Flatten(chunks[..k + 1]) == files[path] + Flatten(chunks[..k]) + chunks[k];
        AdvanceByTwice(tasks, id, TotalLength(chunks[..k]), |chunks[k]|);
        progress.Advance(id, |chunks[k]|);
        disk.Append(path, chunks[k]);
        k := k + 1;
      }
      return k, false;
    }

    /** The `try`/`finally` for an entry taken off the queue. */
    method HandleJob(entry: Entry) returns (end: JobEnd)
      requires Valid()
      modifies this, queue, progress, overall, stop, disk
      requires queue.unfinished > |queue.items|
      ensures Valid()
      ensures Snap() == FinishJob(Environment(), old(Snap()), entry).world
      ensures end == FinishJob(Environment(), old(Snap()), entry).end
    {
      ghost var e := Environment();
      ghost var w := Snap();
      var path := TargetPath(Environment(), entry);
      end := DownloadFile(entry.url, Label(path), path);
      CleanUp(end);
    }

    /** The `finally` block of a job that ended as `end`. */
    method CleanUp(end: JobEnd)
      requires Valid() && queue.unfinished > |queue.items|
      requires taskId.Some? ==> taskId.value in progress.tasks
      modifies this, queue, progress, overall
      ensures Valid()
      ensures Snap() == AfterJob(Environment(), old(Snap()), end)
    {
      if end.Failed? {
        isRunning := false;
      } else {
        isRunning := true;
      }
      if taskId.Some? {
        progress.Remove(taskId.value);
      }
      if isRunning {
        overall.Advance(overallTask, 1);
      }
      queue.TaskDone();
    }

    /** One pass of the loop in `run`; `None` when the loop goes on. */
    method Pass() returns (exit: Option<Exit>)
      requires Valid() && isRunning
      modifies this, queue, progress, overall, stop, disk
      ensures Valid()
      ensures Snap() == TurnSpec(Environment(), old(Snap())).world
      ensures exit == TurnSpec(Environment(), old(Snap())).exit
    {
      ghost var checkedAt := stop.polls;
      taskId := None;
      var stopNow := stop.IsSet();
      if stopNow {
        isRunning := false;
        return Some(StopSeen);
      }
      ghost var w1 := Snap();
      assert w1 == Polled(old(Snap()));
      TurnWhenClear(Environment(), old(Snap()));
      exit := Take(checkedAt);
      assert Snap() == TakeSpec(Environment(), w1, checkedAt).world;
    }

    /** The `get` and what follows it, after the poll numbered `checkedAt`. */
    method Take(ghost checkedAt: nat) returns (exit: Option<Exit>)
      requires Valid() && isRunning
      modifies this, queue, progress, overall, stop, disk
      ensures Valid()
      ensures Snap() == TakeSpec(Environment(), old(Snap()), checkedAt).world
      ensures exit == TakeSpec(Environment(), old(Snap()), checkedAt).exit
    {
      if queue.items == [] {
        return Some(Blocked);
      }
      var item := queue.Get();
      if item.Sentinel? {
        isRunning := false;
        queue.TaskDone();
        return Some(SentinelSeen);
      }
      var end := HandleJob(item.entry);
      exit := if end.Failed? then Some(Crashed) else None;
    }

    /** `run`; the returned `Exit` says which way the loop was left. */
    method Run() returns (exit: Exit)
      requires Valid()
      modifies this, queue, progress, overall, stop, disk
      ensures Valid()
      ensures Snap() == RunFrom(Environment(), old(Snap())).world
      ensures exit == RunFrom(Environment(), old(Snap())).exit
    {
      ghost var e := Environment();
      ghost var w0 := Snap();
      while isRunning
        invariant Valid()
        invariant RunFrom(e, Snap()).world == RunFrom(e, w0).world
        invariant RunFrom(e, Snap()).exit == RunFrom(e, w0).exit
        decreases |queue.items|
      {
        var turn := Pass();
        if turn.Some? {
          return turn.value;
        }
      }
      return NotRunning;
    }
  }
}
