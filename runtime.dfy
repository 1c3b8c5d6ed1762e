/** The objects a download worker shares with the rest of the program: the job queue
    (`queue.Queue`), the progress displays (rich's `Progress`, kept as its task table), the
    process-wide stop event and the local filesystem. Only the state the worker reads or
    changes is kept. */
module Runtime {
  import opened Common

  /** `queue.Queue`: a FIFO buffer and its count of unfinished tasks, which `put` raises and
      `task_done` lowers. */
  class JobQueue<T> {
    var items: seq<T>
    var unfinished: int

    constructor ()
      ensures items == [] && unfinished == 0
    {
      items := [];
      unfinished := 0;
    }

    method Put(x: T)
      modifies this
      ensures items == old(items) + [x]
      ensures unfinished == old(unfinished) + 1
    {
      items := items + [x];
      unfinished := unfinished + 1;
    }

    /** `get()`; on an empty queue the program's call blocks, so callers check first. */
    method Get() returns (x: T)
      requires items != []
      modifies this
      ensures x == old(items)[0] && items == old(items)[1..]
      ensures unfinished == old(unfinished)
    {
      x := items[0];
      items := items[1..];
    }

    /** `task_done()`; the library raises when more calls than puts are made. */
    method TaskDone()
      requires unfinished > 0
      modifies this
      ensures items == old(items)
      ensures unfinished == old(unfinished) - 1
    {
      unfinished := unfinished - 1;
    }
  }

  /** One progress bar: its name (the `filename` field), its total, how far it has got, and
      whether it has been started. */
  datatype Task = Task(name: string, total: int, completed: int, started: bool)

  /** The total rich gives a task when `add_task` is called without one. */
  const DefaultTotal: int := 100

  /** `update(task, advance=n)` on a task table. rich raises KeyError for a missing task;
      here a missing task is left alone, a case no caller reaches: `Progress.Advance` requires
      the task, and the worker's overall task is part of `DownloaderWorker.Valid()`. */
  function AdvanceBy(tasks: map<nat, Task>, id: nat, n: int): (r: map<nat, Task>)
    ensures r.Keys == tasks.Keys
    ensures forall k :: k in tasks && k != id ==> r[k] == tasks[k]
    ensures id in tasks ==> r[id] == tasks[id].(completed := tasks[id].completed + n)
  {
    if id in tasks then tasks[id := tasks[id].(completed := tasks[id].completed + n)] else tasks
  }

  /** Advancing twice advances by the sum. */
  lemma AdvanceByTwice(tasks: map<nat, Task>, id: nat, m: int, n: int)
    ensures AdvanceBy(AdvanceBy(tasks, id, m), id, n) == AdvanceBy(tasks, id, m + n)
  {
  }

  /** Advancing by nothing changes nothing. */
  lemma AdvanceByZero(tasks: map<nat, Task>, id: nat)
    ensures AdvanceBy(tasks, id, 0) == tasks
  {
    if id in tasks {
      assert tasks[id].(completed := tasks[id].completed + 0) == tasks[id];
    }
  }

  /** rich's `Progress`: a table of tasks keyed by consecutive ids. */
  class Progress {
    var tasks: map<nat, Task>
    var nextId: nat

    /** Every id handed out so far is below the next one. */
    ghost predicate Valid()
      reads this
    {
      forall id :: id in tasks ==> id < nextId
    }

    constructor ()
      ensures Valid() && tasks == map[] && nextId == 0
    {
      tasks := map[];
      nextId := 0;
    }

    method AddTask(name: string, total: int, started: bool) returns (id: nat)
      requires Valid()
      modifies this
      ensures Valid()
      ensures id == old(nextId) && id !in old(tasks)
      ensures tasks == old(tasks)[id := Task(name, total, 0, started)]
      ensures nextId == old(nextId) + 1
    {
      id := nextId;
      tasks := tasks[id := Task(name, total, 0, started)];
      nextId := nextId + 1;
    }

    /** `update(task, total=n)`. */
    method SetTotal(id: nat, total: int)
      requires Valid() && id in tasks
      modifies this
      ensures Valid()
      ensures tasks == old(tasks)[id := old(tasks)[id].(total := total)]
      ensures nextId == old(nextId)
    {
      tasks := tasks[id := tasks[id].(total := total)];
    }

    /** `start_task(task)`. */
    method Start(id: nat)
      requires Valid() && id in tasks
      modifies this
      ensures Valid()
      ensures tasks == old(tasks)[id := old(tasks)[id].(started := true)]
      ensures nextId == old(nextId)
    {
      tasks := tasks[id := tasks[id].(started := true)];
    }

    /** `update(task, advance=n)`. */
    method Advance(id: nat, n: int)
      requires Valid() && id in tasks
      modifies this
      ensures Valid()
      ensures tasks == AdvanceBy(old(tasks), id, n)
      ensures nextId == old(nextId)
    {
      tasks := tasks[id := tasks[id].(completed := tasks[id].completed + n)];
    }

    /** `remove_task(task)`. */
    method Remove(id: nat)
      requires Valid() && id in tasks
      modifies this
      ensures Valid()
      ensures tasks == old(tasks) - {id}
      ensures nextId == old(nextId)
    {
      tasks := tasks - {id};
    }
  }

  /** Whether a stop event that another thread sets after `after` polls (never, for None) is
      already set at poll number `poll`. Once set, it stays set. */
  predicate SetAt(after: Option<nat>, poll: nat)
  {
    after.Some? && after.value <= poll
  }

  /** The process-wide `_stop_event`, as one worker sees it. The worker never sets it; the
      thread that does is represented by `setAfter`, the number of this worker's polls that
      come before the event is set. `polls` counts the worker's `is_set()` calls. */
  class StopEvent {
    const setAfter: Option<nat>
    var polls: nat

    constructor (setAfter: Option<nat>)
      ensures this.setAfter == setAfter && polls == 0
    {
      this.setAfter := setAfter;
      polls := 0;
    }

    method IsSet() returns (b: bool)
      modifies this
      ensures b == SetAt(setAfter, old(polls))
      ensures polls == old(polls) + 1
    {
      b := SetAt(setAfter, polls);
      polls := polls + 1;
    }
  }

  /** The local filesystem: the bytes of each existing file, by path. */
  class Disk {
    var files: map<string, seq<uint8>>

    constructor (files: map<string, seq<uint8>>)
      ensures this.files == files
    {
      this.files := files;
    }

    /** `open(path, "wb")`: creates the file or empties it. */
    method Truncate(path: string)
      modifies this
      ensures files == old(files)[path := []]
    {
      files := files[path := []];
    }

    /** `f.write(data)` on a file opened for writing. */
    method Append(path: string, data: seq<uint8>)
      requires path in files
      modifies this
      ensures files == old(files)[path := old(files)[path] + data]
    {
      files := files[path := files[path] + data];
    }
  }
}
