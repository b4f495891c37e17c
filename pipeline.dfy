/**
 * The bookkeeping of the download/join pipeline, processed one playlist at
 * a time.
 *
 * The main flow calls the wait group's `Add(1)` once per playlist before
 * sending it to the job queue; a worker downloads the playlist and bumps
 * the "Downloaded" bar; the detached join task, when it returns, runs its
 * deferred `Done()` and bumps the "Joined" bar. Both bars have the number
 * of playlists as their total. Goroutines, the bounded channel and the
 * blocking of `Wait` are not modelled: only the counting discipline is.
 */
module Pipeline {
  import opened Names
  import opened Views

  /** The wait group's Add/Done tallies and the current values of the two progress bars. */
  class Progress {
    const total: nat
    var added: nat
    var done: nat
    var downloaded: nat
    var joined: nat

    /**
     * Every task that finished was launched after a download, every
     * download follows an Add, no bar passes its total, and each finished
     * task bumped the "Joined" bar exactly once.
     */
    ghost predicate Valid()
      reads this
    {
      joined == done <= downloaded <= added <= total
    }

    /** The wait group's counter: Add calls minus Done calls. */
    function Outstanding(): int
      reads this
    {
      added - done
    }

    constructor (total: nat)
      ensures Valid() && this.total == total
      ensures added == 0 && done == 0 && downloaded == 0 && joined == 0
    {
      this.total := total;
      added, done, downloaded, joined := 0, 0, 0, 0;
    }

    /** `joinWg.Add(1)`, once per playlist, before it is sent to the queue. */
    method Add()
      requires Valid() && added < total
      modifies this
      ensures Valid()
      ensures added == old(added) + 1 && Outstanding() == old(Outstanding()) + 1
      ensures done == old(done) && downloaded == old(downloaded) && joined == old(joined)
      ensures Outstanding() + joined == added
    {
      added := added + 1;
    }

    /** `downloadBar.Increment()`, after a worker has downloaded a queued playlist. */
    method DownloadFinished()
      requires Valid() && downloaded < added
      modifies this
      ensures Valid()
      ensures downloaded == old(downloaded) + 1
      ensures added == old(added) && done == old(done) && joined == old(joined)
      ensures Outstanding() == old(Outstanding())
    {
      downloaded := downloaded + 1;
    }

    /**
     * The end of a detached join task: its deferred calls run last-in
     * first-out, so `joinWg.Done()` and then `joiningBar.Increment()`,
     * whatever the task joined or combined.
     */
    method TaskFinished()
      requires Valid() && done < downloaded
      modifies this
      ensures Valid()
      ensures done == old(done) + 1 && Outstanding() == old(Outstanding()) - 1
      ensures joined == old(joined) + 1
      ensures added == old(added) && downloaded == old(downloaded)
      ensures Outstanding() + joined == added
    {
      done := done + 1;
      joined := joined + 1;
    }
  }

  /** The join task that follows the download of one playlist. */
  function TaskOf(views: string, download: Playlist -> M3U8File, joinChunks: Joiner): Playlist -> TaskResult {
    p => JoinTask(download(p), views, joinChunks)
  }

  /** One task per playlist: task `i` is `task(playlists[i])`. */
  function MapTasks(playlists: seq<Playlist>, task: Playlist -> TaskResult): (tasks: seq<TaskResult>)
    ensures |tasks| == |playlists|
  {
    if playlists == [] then [] else MapTasks(playlists[..|playlists| - 1], task) + [task(playlists[|playlists| - 1])]
  }

  lemma {:induction false} MapTasksAt(playlists: seq<Playlist>, task: Playlist -> TaskResult, i: nat)
    requires i < |playlists|
    ensures MapTasks(playlists, task)[i] == task(playlists[i])
    decreases |playlists|
  {
    var n := |playlists| - 1;
    if i < n {
      MapTasksAt(playlists[..n], task, i);
      assert playlists[..n][i] == playlists[i];
    }
  }

  lemma MapTasksStep(playlists: seq<Playlist>, task: Playlist -> TaskResult, i: nat)
    requires i < |playlists|
    ensures MapTasks(playlists[..i + 1], task) == MapTasks(playlists[..i], task) + [task(playlists[i])]
  {
    assert playlists[..i + 1][..i] == playlists[..i];
  }

  /**
   * What a run produces: exactly one join task per playlist, task `i` being
   * the one on the manifests downloaded for `playlists[i]`. With several
   * workers the tasks may start in another order; only the correspondence
   * is kept.
   */
  function RunSpec(playlists: seq<Playlist>, views: string, download: Playlist -> M3U8File, joinChunks: Joiner)
    : (tasks: seq<TaskResult>)
    ensures |tasks| == |playlists|
  {
    MapTasks(playlists, TaskOf(views, download, joinChunks))
  }

  /** Task `i` of a run is the join task on the manifests downloaded for `playlists[i]`. */
  lemma RunSpecOrder(playlists: seq<Playlist>, views: string, download: Playlist -> M3U8File, joinChunks: Joiner)
    ensures var tasks := RunSpec(playlists, views, download, joinChunks);
      forall i :: 0 <= i < |playlists| ==> tasks[i] == JoinTask(download(playlists[i]), views, joinChunks)
  {
    forall i | 0 <= i < |playlists|
      ensures RunSpec(playlists, views, download, joinChunks)[i] == JoinTask(download(playlists[i]), views, joinChunks)
    {
      MapTasksAt(playlists, TaskOf(views, download, joinChunks), i);
    }
  }

  /**
   * The pipeline run sequentially: each playlist is added to the wait
   * group, downloaded (by `download`, which stands for the download helper
   * followed by writing the temporary manifests) and handed to one join
   * task. Returns the tasks' results and the final counter values: the
   * wait group is back at zero and both bars are full.
   */
  method Run(playlists: seq<Playlist>, views: string, download: Playlist -> M3U8File, joinChunks: Joiner)
    returns (tasks: seq<TaskResult>, downloadCount: nat, joinCount: nat, outstanding: int)
    ensures tasks == RunSpec(playlists, views, download, joinChunks)
    ensures outstanding == 0
    ensures downloadCount == |playlists| && joinCount == |playlists|
  {
    var progress := new Progress(|playlists|);
    tasks := [];
    var i := 0;
    while i < |playlists|
      invariant 0 <= i <= |playlists|
      invariant progress.Valid() && progress.total == |playlists|
      invariant progress.added == i && progress.downloaded == i && progress.done == i
      invariant tasks == RunSpec(playlists[..i], views, download, joinChunks)
    {
      progress.Add();
      var file := download(playlists[i]);
      progress.DownloadFinished();
      var t := JoinTask(file, views, joinChunks);
      progress.TaskFinished();
      MapTasksStep(playlists, TaskOf(views, download, joinChunks), i);
      tasks := tasks + [t];
      i := i + 1;
    }
    assert playlists[..i] == playlists;
    downloadCount, joinCount, outstanding := progress.downloaded, progress.joined, progress.Outstanding();
  }

  /* ---------- what the run asked the external helpers for ---------- */

  /** All calls of all tasks, task by task. */
  function Flatten(tasks: seq<TaskResult>): (calls: seq<Call>)
  {
    if tasks == [] then [] else Flatten(tasks[..|tasks| - 1]) + tasks[|tasks| - 1].calls
  }

  /** Number of single-view joins in a trace. */
  function ViewJoinCount(calls: seq<Call>): (n: nat)
    ensures n <= |calls|
  {
    if calls == [] then 0 else ViewJoinCount(calls[..|calls| - 1]) + (if calls[|calls| - 1].JoinChunks? then 1 else 0)
  }

  /** Number of merges in a trace. */
  function CombineCount(calls: seq<Call>): (n: nat)
    ensures n <= |calls|
    ensures n + ViewJoinCount(calls) == |calls|
  {
    if calls == [] then 0 else CombineCount(calls[..|calls| - 1]) + (if calls[|calls| - 1].JoinViews? then 1 else 0)
  }

  lemma {:induction false} CountsAppend(a: seq<Call>, b: seq<Call>)
    ensures ViewJoinCount(a + b) == ViewJoinCount(a) + ViewJoinCount(b)
    ensures CombineCount(a + b) == CombineCount(a) + CombineCount(b)
    decreases |b|
  {
    if b == [] {
      assert a + b == a;
    } else {
      assert (a + b)[..|a + b| - 1] == a + b[..|b| - 1];
      CountsAppend(a, b[..|b| - 1]);
    }
  }

  /** One task joins each selected view once and merges at most once. */
  lemma TaskCounts(file: M3U8File, views: string, joinChunks: Joiner)
    ensures var t := JoinTask(file, views, joinChunks);
      && ViewJoinCount(t.calls) ==
           (if file.firstViewFile != "" && views != "right" then 1 else 0)
           + (if file.secondViewFile != "" && views != "left" then 1 else 0)
      && CombineCount(t.calls) == (if t.left != "" && t.right != "" && views == "both" then 1 else 0)
  {
    var t := JoinTask(file, views, joinChunks);
    var p := file.playlist;
    var a := JoinStep(file.firstViewFile != "" && views != "right", file.firstViewFile, LeftViewName(p.seqNo, p.title), joinChunks);
    var b := JoinStep(file.secondViewFile != "" && views != "left", file.secondViewFile, RightViewName(p.seqNo, p.title), joinChunks);
    var c := if t.left != "" && t.right != "" && views == "both" then [JoinViews(t.left, t.right, CombinedName(p.seqNo, p.title))] else [];
    assert t.calls == a.0 + b.0 + c;
    CountsAppend(a.0 + b.0, c);
    CountsAppend(a.0, b.0);
    assert a.0 != [] ==> a.0[..0] == [];
    assert b.0 != [] ==> b.0[..0] == [];
    assert c != [] ==> c[..0] == [];
  }

  /** With both manifests present and every join yielding a file, one task's counts follow the policy. */
  lemma TaskCountsAllSucceed(file: M3U8File, views: string, joinChunks: Joiner)
    requires file.firstViewFile != "" && file.secondViewFile != ""
    requires forall m, o :: joinChunks(m, o) != ""
    ensures var calls := JoinTask(file, views, joinChunks).calls;
      && (views == "both" ==> ViewJoinCount(calls) == 2 && CombineCount(calls) == 1)
      && (views == "left" || views == "right" ==> ViewJoinCount(calls) == 1 && CombineCount(calls) == 0)
  {
    TaskCounts(file, views, joinChunks);
    LeftJoinedIff(file, views, joinChunks);
    RightJoinedIff(file, views, joinChunks);
    JoinedPaths(file, views, joinChunks);
  }

  /** The last task's calls come last in the trace. */
  lemma MapTasksTrace(playlists: seq<Playlist>, task: Playlist -> TaskResult)
    requires playlists != []
    ensures var n := |playlists| - 1;
      Flatten(MapTasks(playlists, task)) == Flatten(MapTasks(playlists[..n], task)) + task(playlists[n]).calls
  {
    var n := |playlists| - 1;
    assert MapTasks(playlists, task)[..n] == MapTasks(playlists[..n], task);
  }

  lemma MultiplyStep(k: nat, n: nat)
    ensures k * (n + 1) == k * n + k
  {
  }

  /** Tasks that each stay within `joins` single-view joins and `merges` merges stay within those per playlist over the run. */
  lemma {:induction false} MapTasksBounds(playlists: seq<Playlist>, task: Playlist -> TaskResult, joins: nat, merges: nat)
    requires forall q :: ViewJoinCount(task(q).calls) <= joins && CombineCount(task(q).calls) <= merges
    ensures var calls := Flatten(MapTasks(playlists, task));
      ViewJoinCount(calls) <= joins * |playlists| && CombineCount(calls) <= merges * |playlists|
    decreases |playlists|
  {
    if playlists != [] {
      var n := |playlists| - 1;
      MapTasksBounds(playlists[..n], task, joins, merges);
      MapTasksTrace(playlists, task);
      CountsAppend(Flatten(MapTasks(playlists[..n], task)), task(playlists[n]).calls);
      MultiplyStep(joins, n);
      MultiplyStep(merges, n);
    }
  }

  /** Tasks that each make exactly `joins` single-view joins and `merges` merges make that many per playlist over the run. */
  lemma {:induction false} MapTasksCounts(playlists: seq<Playlist>, task: Playlist -> TaskResult, joins: nat, merges: nat)
    requires forall q :: ViewJoinCount(task(q).calls) == joins && CombineCount(task(q).calls) == merges
    ensures var calls := Flatten(MapTasks(playlists, task));
      ViewJoinCount(calls) == joins * |playlists| && CombineCount(calls) == merges * |playlists|
    decreases |playlists|
  {
    if playlists != [] {
      var n := |playlists| - 1;
      MapTasksCounts(playlists[..n], task, joins, merges);
      MapTasksTrace(playlists, task);
      CountsAppend(Flatten(MapTasks(playlists[..n], task)), task(playlists[n]).calls);
      MultiplyStep(joins, n);
      MultiplyStep(merges, n);
    }
  }

  /**
   * Over a whole run: at most two single-view joins and at most one merge
   * per playlist, and no merge at all unless the policy is exactly "both".
   */
  lemma RunCallBounds(playlists: seq<Playlist>, views: string, download: Playlist -> M3U8File, joinChunks: Joiner)
    ensures var calls := Flatten(RunSpec(playlists, views, download, joinChunks));
      && ViewJoinCount(calls) <= 2 * |playlists|
      && CombineCount(calls) <= |playlists|
      && (views != "both" ==> CombineCount(calls) == 0)
  {
    var task := TaskOf(views, download, joinChunks);
    var merges := if views == "both" then 1 else 0;
    forall q
      ensures ViewJoinCount(task(q).calls) <= 2 && CombineCount(task(q).calls) <= merges
    {
      TaskCounts(download(q), views, joinChunks);
    }
    MapTasksBounds(playlists, task, 2, merges);
  }

  /**
   * Every playlist has both views and every join yields a file: under
   * "both" the run makes two single-view joins and one merge per playlist;
   * under "left" or "right" one single-view join per playlist and no merge.
   */
  lemma RunCallsAllSucceed(playlists: seq<Playlist>, views: string, download: Playlist -> M3U8File, joinChunks: Joiner)
    requires forall q :: download(q).firstViewFile != "" && download(q).secondViewFile != ""
    requires forall m, o :: joinChunks(m, o) != ""
    ensures var calls := Flatten(RunSpec(playlists, views, download, joinChunks));
      && (views == "both" ==> ViewJoinCount(calls) == 2 * |playlists| && CombineCount(calls) == |playlists|)
      && (views == "left" || views == "right" ==> ViewJoinCount(calls) == |playlists| && CombineCount(calls) == 0)
  {
    if views == "both" || views == "left" || views == "right" {
      var task := TaskOf(views, download, joinChunks);
      var joins, merges := if views == "both" then 2 else 1, if views == "both" then 1 else 0;
      forall q
        ensures ViewJoinCount(task(q).calls) == joins && CombineCount(task(q).calls) == merges
      {
        TaskCountsAllSucceed(download(q), views, joinChunks);
      }
      MapTasksCounts(playlists, task, joins, merges);
    }
  }
}
