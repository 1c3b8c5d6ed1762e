/** What `download_file` and `run` of `DownloaderWorker` guarantee, stated on the functions
    that the worker's methods are proved to follow. */
module DownloaderLemmas {
  import opened Common
  import opened Runtime
  import opened Downloader

  // ---------------------------------------------------------------------------------------
  // download_file
  // ---------------------------------------------------------------------------------------

  /** Whether the size check of `download_file` finds the file already there: the length is
      a number and a file of exactly that size exists at `path`. */
  predicate AlreadyThere(w: World, r: Response, path: string)
  {
    !r.length.Unparsable? && path in w.files && |w.files[path]| == RemoteSize(r.length)
  }

  /** A download changes nothing but its own progress task, `task_id`, the poll count and the
      file at `path`: the queue, the overall progress, `is_running` and every other file stay
      as they were, and the new task (named by the label) is the only one added. */
  lemma DownloadFrame(e: Env, w: World, url: string, caption: string, path: string)
    ensures var d := DownloadSpec(e, w, url, caption, path);
      && d.world.items == w.items && d.world.unfinished == w.unfinished
      && d.world.overall == w.overall && d.world.overallNext == w.overallNext
      && d.world.running == w.running
      && d.world.taskId == Some(w.nextId) && d.world.nextId == w.nextId + 1
      && w.nextId in d.world.tasks && d.world.tasks[w.nextId].name == caption
      && d.world.tasks - {w.nextId} == w.tasks - {w.nextId}
      && d.world.polls >= w.polls
      && (forall p :: p != path ==> (p in d.world.files <==> p in w.files))
      && (forall p :: p != path && p in w.files ==> d.world.files[p] == w.files[p])
  {
    var d := DownloadSpec(e, w, url, caption, path);
    assert d.world.tasks - {w.nextId} == w.tasks - {w.nextId};
  }

  /** The skip: a download ends as `Skipped` exactly when the request succeeds, the length is
      a number (0 when the header is missing) and a file of that size is already at `path`.
      The check comes before `raise_for_status`, so an error response is skipped too, and a
      skip leaves every file and the poll count as they were. */
  lemma DownloadSkip(e: Env, w: World, url: string, caption: string, path: string)
    ensures var d := DownloadSpec(e, w, url, caption, path);
      && (d.end == Skipped <==> url in e.web && AlreadyThere(w, e.web[url], path))
      && (d.end == Skipped ==> d.world.files == w.files && d.world.polls == w.polls)
  {
  }

  /** The failures that happen before anything is written: the request fails, the length is
      not a number, or `raise_for_status` raises. None of them touches a file or polls the
      stop event; the status is only looked at when the size check did not skip. */
  lemma DownloadFailsEarly(e: Env, w: World, url: string, caption: string, path: string)
    ensures var d := DownloadSpec(e, w, url, caption, path);
      && (d.end == Failed(ConnectionFailed) <==> url !in e.web)
      && (d.end == Failed(BadContentLength) <==> url in e.web && e.web[url].length.Unparsable?)
      && (d.end == Failed(HttpStatus) <==>
            url in e.web && !e.web[url].length.Unparsable? && !AlreadyThere(w, e.web[url], path) && !e.web[url].ok)
      && (d.end in {Failed(ConnectionFailed), Failed(BadContentLength), Failed(HttpStatus)} ==>
            d.world.files == w.files && d.world.polls == w.polls)
  {
  }

  /** Whether the download reached the `with open(local_file, "wb")` block. */
  predicate Streamed?(end: JobEnd)
  {
    end == Completed || end == Cancelled || end == Failed(StreamBroken)
  }

  /** Once streaming starts the file is truncated and then holds exactly the first k chunks,
      where k counts the chunks before the first poll that saw the stop event; the task is
      started, its total is the header's size and its count equals the bytes on disk. A
      completed stream (or one that broke after its last chunk) wrote the whole body; a
      cancelled one stopped at a poll that saw the event set. */
  lemma DownloadStreams(e: Env, w: World, url: string, caption: string, path: string)
    ensures var d := DownloadSpec(e, w, url, caption, path);
      Streamed?(d.end) ==>
        var r := e.web[url];
        var k := StopIndex(e.stopAfter, w.polls, |r.chunks|);
        && url in e.web && r.ok && !r.length.Unparsable? && !AlreadyThere(w, r, path)
        && path in d.world.files && d.world.files[path] == Flatten(r.chunks[..k])
        && d.world.tasks[w.nextId] == Task(caption, RemoteSize(r.length), |d.world.files[path]|, true)
        && (forall p :: w.polls <= p < w.polls + k ==> !SetAt(e.stopAfter, p))
        && (d.end == Cancelled <==> k < |r.chunks|)
        && (d.end == Cancelled ==> d.world.polls == w.polls + k + 1 && SetAt(e.stopAfter, w.polls + k))
        && (d.end != Cancelled ==> d.world.polls == w.polls + |r.chunks| && d.world.files[path] == Flatten(r.chunks))
        && (d.end == Failed(StreamBroken) <==> k == |r.chunks| && r.breaksAfter)
  {
    var d := DownloadSpec(e, w, url, caption, path);
    if Streamed?(d.end) {
      var r := e.web[url];
      var k := StopIndex(e.stopAfter, w.polls, |r.chunks|);
      TotalLengthIsFlattenedSize(r.chunks[..k]);
      assert r.chunks[..|r.chunks|] == r.chunks;
    }
  }

  /** Running a completed download again skips it when the server's length header matches
      the body it sent: the second run finds a file of that size and leaves it alone. */
  lemma DownloadIdempotent(e: Env, w: World, url: string, caption: string, caption2: string, path: string)
    requires DownloadSpec(e, w, url, caption, path).end == Completed
    requires e.web[url].length == Header(|Flatten(e.web[url].chunks)|)
    ensures var d := DownloadSpec(e, w, url, caption, path);
      var d2 := DownloadSpec(e, d.world, url, caption2, path);
      d2.end == Skipped && d2.world.files == d.world.files
  {
    DownloadStreams(e, w, url, caption, path);
    var d := DownloadSpec(e, w, url, caption, path);
    DownloadSkip(e, d.world, url, caption2, path);
  }

  // ---------------------------------------------------------------------------------------
  // run
  // ---------------------------------------------------------------------------------------

  /** What a step took off the queue. */
  function Dequeued(s: Step): Item
  {
    match s
    case Stopping(_) => Sentinel
    case Processed(_, entry, _) => Job(entry)
  }

  /** Whether a step handled an entry and returned normally, so overall progress advanced. */
  predicate Done(s: Step)
  {
    s.Processed? && !s.end.Failed?
  }

  /** How many entries the steps handled. */
  function JobCount(steps: seq<Step>): nat
  {
    if steps == [] then 0 else (if steps[0].Processed? then 1 else 0) + JobCount(steps[1..])
  }

  /** How many entries the steps handled without an exception. */
  function DoneCount(steps: seq<Step>): nat
  {
    if steps == [] then 0 else (if Done(steps[0]) then 1 else 0) + DoneCount(steps[1..])
  }

  lemma {:induction false} CountsAppend(a: seq<Step>, b: seq<Step>)
    ensures JobCount(a + b) == JobCount(a) + JobCount(b)
    ensures DoneCount(a + b) == DoneCount(a) + DoneCount(b)
  {
    if a == [] {
      assert a + b == b;
    } else {
      assert (a + b)[1..] == a[1..] + b;
      CountsAppend(a[1..], b);
    }
  }

  /** Steps that all returned normally but the last, which did not: the count of normal
      returns leaves out only that last step. */
  lemma DoneBeforeLastCount(steps: seq<Step>)
    requires |steps| > 0 && !Done(steps[|steps| - 1])
    requires forall i :: 0 <= i < |steps| - 1 ==> Done(steps[i])
    ensures DoneCount(steps) == |steps| - 1
  {
    var n := |steps| - 1;
    AllDoneCount(steps[..n]);
    assert steps == steps[..n] + [steps[n]];
    CountsAppend(steps[..n], [steps[n]]);
    assert DoneCount([steps[n]]) == 0 by {
      assert [steps[n]][1..] == [];
    }
  }

  /** Every step of the list handled an entry and returned normally. */
  lemma {:induction false} AllDoneCount(steps: seq<Step>)
    requires forall i :: 0 <= i < |steps| ==> Done(steps[i])
    ensures DoneCount(steps) == |steps| && JobCount(steps) == |steps|
  {
    if steps != [] {
      AllDoneCount(steps[1..]);
    }
  }

  /** Every key of a task table is below the next id to hand out. */
  predicate IdsBelow(tasks: map<nat, Task>, nextId: nat)
  {
    forall k :: k in tasks ==> k < nextId
  }

  /** A job leaves the table of download tasks as it found it: the `finally` block removes
      the task that `download_file` added. */
  lemma FinishJobTasks(e: Env, w: World, entry: Entry)
    requires IdsBelow(w.tasks, w.nextId)
    ensures var d := FinishJob(e, w, entry);
      d.world.tasks == w.tasks && d.world.nextId == w.nextId + 1
  {
    var path := TargetPath(e, entry);
    DownloadFrame(e, w, entry.url, Label(path), path);
    assert w.tasks - {w.nextId} == w.tasks;
  }

  /** The overall progress after a job: one step forward if it returned normally. */
  lemma FinishJobOverall(e: Env, w: World, entry: Entry)
    ensures var d := FinishJob(e, w, entry);
      && d.world.overall == AdvanceBy(w.overall, e.overallTask, if d.end.Failed? then 0 else 1)
      && d.world.overallNext == w.overallNext
      && d.world.unfinished == w.unfinished - 1
  {
    var path := TargetPath(e, entry);
    DownloadFrame(e, w, entry.url, Label(path), path);
    AdvanceByZero(w.overall, e.overallTask);
  }

  /** One pass of the loop, as seen from the queue: it takes at most the first item, and it
      calls `task_done` exactly once for the item it takes. */
  lemma TurnQueue(e: Env, w: World)
    ensures var t := TurnSpec(e, w);
      && |t.steps| <= 1 && |t.steps| <= |w.items|
      && t.world.items == w.items[|t.steps|..]
      && (|t.steps| == 1 ==> Dequeued(t.steps[0]) == w.items[0])
      && t.world.unfinished == w.unfinished - |t.steps|
  {
    if !SetAt(e.stopAfter, w.polls) && w.items != [] && w.items[0].Job? {
      FinishJobOverall(e, Polled(w).(items := w.items[1..]), w.items[0].entry);
    }
  }

  /** How one pass ends: the stop event at the top of the loop, an empty queue, a sentinel,
      an exception, or a normal return that goes round again. */
  lemma TurnExit(e: Env, w: World)
    ensures var t := TurnSpec(e, w);
      && (t.exit == Some(StopSeen) <==> SetAt(e.stopAfter, w.polls))
      && (t.exit == Some(Blocked) <==> !SetAt(e.stopAfter, w.polls) && w.items == [])
      && (t.exit == Some(SentinelSeen) <==> |t.steps| == 1 && t.steps[0].Stopping?)
      && (t.exit == Some(Crashed) <==> |t.steps| == 1 && t.steps[0].Processed? && t.steps[0].end.Failed?)
      && (t.exit.None? <==> |t.steps| == 1 && Done(t.steps[0]))
      && (t.exit == Some(Blocked) ==> t.world.running == w.running)
      && (t.exit.Some? && t.exit != Some(Blocked) ==> !t.world.running)
      && (t.exit.None? ==> t.world.running)
  {
  }

  /** Polls in one pass: the top of the loop is poll number `w.polls`, a step records it,
      and a step is only taken when that poll found the event clear. */
  lemma TurnPolls(e: Env, w: World)
    ensures var t := TurnSpec(e, w);
      && t.world.polls > w.polls
      && (|t.steps| == 1 ==> t.steps[0].checkedAt == w.polls && !SetAt(e.stopAfter, w.polls))
      && (t.exit == Some(StopSeen) ==> t.world.polls == w.polls + 1)
  {
    if !SetAt(e.stopAfter, w.polls) && w.items != [] && w.items[0].Job? {
      var w1 := Polled(w).(items := w.items[1..]);
      var path := TargetPath(e, w.items[0].entry);
      DownloadFrame(e, w1, w.items[0].entry.url, Label(path), path);
    }
  }

  /** The counters of one pass: the overall progress moves once per job that returned
      normally, and the download tasks are restored. */
  lemma TurnCounters(e: Env, w: World)
    ensures var t := TurnSpec(e, w);
      && t.world.overall == AdvanceBy(w.overall, e.overallTask, DoneCount(t.steps))
      && t.world.overallNext == w.overallNext
      && (IdsBelow(w.tasks, w.nextId) ==>
            t.world.tasks == w.tasks && t.world.nextId == w.nextId + JobCount(t.steps))
  {
    var t := TurnSpec(e, w);
    if !SetAt(e.stopAfter, w.polls) && w.items != [] && w.items[0].Job? {
      var w1 := Polled(w).(items := w.items[1..]);
      FinishJobOverall(e, w1, w.items[0].entry);
      if IdsBelow(w.tasks, w.nextId) {
        FinishJobTasks(e, w1, w.items[0].entry);
      }
      assert t.steps[1..] == [];
    } else {
      AdvanceByZero(w.overall, e.overallTask);
      if t.steps != [] {
        assert t.steps[1..] == [];
      }
    }
  }

  /** Two advances of the same task, stated on plain tables so that the step is taken
      without unfolding the worlds the tables come from. */
  lemma AdvanceChain(o: map<nat, Task>, o1: map<nat, Task>, o2: map<nat, Task>, o3: map<nat, Task>,
                     id: nat, m: int, n: int, k: int)
    requires o1 == AdvanceBy(o, id, m) && o2 == AdvanceBy(o1, id, n) && o3 == o2 && k == m + n
    ensures o3 == AdvanceBy(o, id, k)
  {
    AdvanceByTwice(o, id, m, n);
  }

  /** Indexing a one-step list followed by the rest. */
  lemma ConsStep(ts: seq<Step>, rest: seq<Step>)
    requires |ts| == 1
    ensures (ts + rest)[0] == ts[0]
    ensures forall i :: 1 <= i < |ts + rest| ==> (ts + rest)[i] == rest[i - 1]
  {
  }

  /** `run` takes items strictly from the front of the queue, in order. */
  lemma {:induction false} RunDequeuesInOrder(e: Env, w: World)
    ensures var r := RunFrom(e, w);
      && |r.steps| <= |w.items|
      && (forall i :: 0 <= i < |r.steps| ==> Dequeued(r.steps[i]) == w.items[i])
    decreases |w.items|
  {
    if w.running {
      var t := TurnSpec(e, w);
      TurnQueue(e, w);
      TurnExit(e, w);
      if t.exit.None? {
        var rest := RunFrom(e, t.world);
        assert RunFrom(e, w) == RunResult(rest.world, t.steps + rest.steps, rest.exit);
        RunDequeuesInOrder(e, t.world);
        ConsStep(t.steps, rest.steps);
      }
    }
  }

  /** `run` leaves behind exactly the items it did not take, and calls `task_done` exactly
      once for each item it takes. */
  lemma {:induction false} RunLeavesRest(e: Env, w: World)
    ensures var r := RunFrom(e, w);
      && |r.steps| <= |w.items|
      && r.world.items == w.items[|r.steps|..]
      && r.world.unfinished == w.unfinished - |r.steps|
    decreases |w.items|
  {
    if w.running {
      var t := TurnSpec(e, w);
      TurnQueue(e, w);
      TurnExit(e, w);
      if t.exit.None? {
        var rest := RunFrom(e, t.world);
        assert RunFrom(e, w) == RunResult(rest.world, t.steps + rest.steps, rest.exit);
        RunLeavesRest(e, t.world);
        assert w.items[1..][|rest.steps|..] == w.items[1 + |rest.steps|..];
      }
    }
  }

  /** How `run` is left: it does nothing when the worker is not running, and afterwards the
      worker is still running exactly when the queue was found empty (its `get` would
      block), which happens only once every item has been taken. */
  lemma {:induction false} RunEnds(e: Env, w: World)
    ensures var r := RunFrom(e, w);
      && (r.exit == NotRunning <==> !w.running)
      && (r.exit == NotRunning ==> r.world == w && r.steps == [])
      && (r.exit == Blocked ==> r.world.items == [])
      && (r.world.running <==> r.exit == Blocked)
    decreases |w.items|
  {
    if w.running {
      var t := TurnSpec(e, w);
      TurnQueue(e, w);
      TurnExit(e, w);
      if t.exit.None? {
        var rest := RunFrom(e, t.world);
        assert RunFrom(e, w) == RunResult(rest.world, t.steps + rest.steps, rest.exit);
        RunEnds(e, t.world);
      } else {
        assert RunFrom(e, w) == RunResult(t.world, t.steps, t.exit.value);
      }
    }
  }

  /** Every step `run` takes before its last one handled an entry that returned normally;
      when the stop event or the empty queue ends it, no item is taken at the end, so every
      step returned normally. */
  lemma {:induction false} RunDoneBeforeLast(e: Env, w: World)
    ensures var r := RunFrom(e, w);
      && (forall i :: 0 <= i < |r.steps| - 1 ==> Done(r.steps[i]))
      && (r.exit == StopSeen || r.exit == Blocked ==> forall i :: 0 <= i < |r.steps| ==> Done(r.steps[i]))
    decreases |w.items|
  {
    if w.running {
      var t := TurnSpec(e, w);
      TurnQueue(e, w);
      TurnExit(e, w);
      if t.exit.None? {
        var rest := RunFrom(e, t.world);
        assert RunFrom(e, w) == RunResult(rest.world, t.steps + rest.steps, rest.exit);
        RunDoneBeforeLast(e, t.world);
        ConsStep(t.steps, rest.steps);
      } else {
        assert RunFrom(e, w) == RunResult(t.world, t.steps, t.exit.value);
      }
    }
  }

  /** Which step `run` is left from: it ends at a sentinel exactly when its last step took
      one, and with an exception exactly when its last step raised. */
  lemma {:induction false} RunLastStep(e: Env, w: World)
    ensures var r := RunFrom(e, w);
      && (r.exit == SentinelSeen <==> |r.steps| > 0 && r.steps[|r.steps| - 1].Stopping?)
      && (r.exit == Crashed <==>
            |r.steps| > 0 && r.steps[|r.steps| - 1].Processed? && r.steps[|r.steps| - 1].end.Failed?)
    decreases |w.items|
  {
    if w.running {
      var t := TurnSpec(e, w);
      TurnQueue(e, w);
      TurnExit(e, w);
      if t.exit.None? {
        var rest := RunFrom(e, t.world);
        assert RunFrom(e, w) == RunResult(rest.world, t.steps + rest.steps, rest.exit);
        RunLastStep(e, t.world);
        RunEnds(e, t.world);
        ConsStep(t.steps, rest.steps);
      } else {
        assert RunFrom(e, w) == RunResult(t.world, t.steps, t.exit.value);
      }
    }
  }

  /** The stop event is polled at the top of every pass: each step records a poll that found
      it clear, the polls recorded increase strictly and lie between where `run` started and
      where it ended, and stopping because of the event means the last poll saw it set. Since
      the event stays set once set, no item is taken after it is set. */
  lemma {:induction false} RunPolls(e: Env, w: World)
    ensures var r := RunFrom(e, w);
      && r.world.polls >= w.polls
      && (forall i :: 0 <= i < |r.steps| ==>
            w.polls <= r.steps[i].checkedAt < r.world.polls && !SetAt(e.stopAfter, r.steps[i].checkedAt))
      && (forall i, j :: 0 <= i < j < |r.steps| ==> r.steps[i].checkedAt < r.steps[j].checkedAt)
      && (r.exit == StopSeen ==> r.world.polls > 0 && SetAt(e.stopAfter, r.world.polls - 1))
    decreases |w.items|
  {
    if w.running {
      var t := TurnSpec(e, w);
      TurnQueue(e, w);
      TurnExit(e, w);
      TurnPolls(e, w);
      if t.exit.None? {
        var rest := RunFrom(e, t.world);
        RunPolls(e, t.world);
        ConsStep(t.steps, rest.steps);
      }
    }
  }

  /** The counters `run` leaves behind: overall progress has moved once for every entry that
      returned normally (skips and cancelled downloads included, exceptions excluded), and
      every download task that was added has been removed again. */
  lemma {:induction false} RunCounters(e: Env, w: World)
    ensures var r := RunFrom(e, w);
      && r.world.overall == AdvanceBy(w.overall, e.overallTask, DoneCount(r.steps))
      && r.world.overallNext == w.overallNext
      && (IdsBelow(w.tasks, w.nextId) ==>
            r.world.tasks == w.tasks && r.world.nextId == w.nextId + JobCount(r.steps))
    decreases |w.items|
  {
    if !w.running {
      AdvanceByZero(w.overall, e.overallTask);
    } else {
      var t := TurnSpec(e, w);
      TurnCounters(e, w);
      if t.exit.None? {
        var rest := RunFrom(e, t.world);
        assert RunFrom(e, w) == RunResult(rest.world, t.steps + rest.steps, rest.exit);
        RunCounters(e, t.world);
        CountsAppend(t.steps, rest.steps);
        var r := RunFrom(e, w);
        AdvanceChain(w.overall, t.world.overall, rest.world.overall, r.world.overall, e.overallTask,
          DoneCount(t.steps), DoneCount(rest.steps), DoneCount(r.steps));
      } else {
        assert RunFrom(e, w) == RunResult(t.world, t.steps, t.exit.value);
      }
    }
  }

  /** Steps that took items from the front of the queue `cli` prepares, every one but the
      last returning normally: they handled the entries in order, and a step beyond the
      entries is the last one and took the first sentinel. */
  lemma QueueSteps(vods: seq<Entry>, threads: int, steps: seq<Step>)
    requires threads >= 1
    requires |steps| <= |QueueFor(vods, threads)|
    requires forall i :: 0 <= i < |steps| ==> Dequeued(steps[i]) == QueueFor(vods, threads)[i]
    requires forall i :: 0 <= i < |steps| - 1 ==> Done(steps[i])
    ensures forall i :: 0 <= i < |steps| && i < |vods| ==> steps[i].Processed? && steps[i].entry == vods[i]
    ensures |steps| > |vods| ==> |steps| == |vods| + 1 && steps[|vods|].Stopping?
  {
    var q := QueueFor(vods, threads);
    forall i | 0 <= i < |steps| && i < |vods|
      ensures steps[i].Processed? && steps[i].entry == vods[i]
    {
      assert Dequeued(steps[i]) == q[i] == Job(vods[i]);
    }
    if |steps| > |vods| {
      var first := steps[|vods|];
      assert Dequeued(first) == q[|vods|] == Sentinel;
      assert |vods| < |steps| - 1 ==> Done(first);
    }
  }

  /** The queue `cli` prepares, seen by a single worker that is never told to stop: the
      worker does not block. It either meets an exception, or it handles every entry in
      order, each returning normally, and then stops at the first sentinel, leaving the
      other sentinels for the other workers; overall progress then moves once per entry. */
  lemma SentinelEndsRun(e: Env, w: World, vods: seq<Entry>, threads: int)
    requires w.running && e.stopAfter.None? && threads >= 1
    requires w.items == QueueFor(vods, threads)
    ensures var r := RunFrom(e, w);
      && (r.exit == SentinelSeen || r.exit == Crashed)
      && (r.exit == SentinelSeen ==>
            && |r.steps| == |vods| + 1
            && (forall i :: 0 <= i < |vods| ==> r.steps[i].Processed? && r.steps[i].entry == vods[i])
            && r.world.items == Sentinels(threads - 1)
            && DoneCount(r.steps) == |vods|)
  {
    var r := RunFrom(e, w);
    RunDequeuesInOrder(e, w);
    RunLeavesRest(e, w);
    RunEnds(e, w);
    RunDoneBeforeLast(e, w);
    RunLastStep(e, w);
    RunPolls(e, w);
    QueueSteps(vods, threads, r.steps);
    assert r.exit == Blocked ==> |r.steps| == |w.items|;
    assert r.exit != StopSeen && r.exit != Blocked;
    assert r.exit == SentinelSeen ==> |r.steps| == |vods| + 1;
    if r.exit == SentinelSeen {
      assert r.world.items == Sentinels(threads - 1);
      DoneBeforeLastCount(r.steps);
    }
  }
}
