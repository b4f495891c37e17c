# Impartus video downloader: the download/join pipeline, modelled in Dafny

The downloader fetches the lectures a user picks from a course. Each lecture's
playlist is downloaded by a fixed pool of workers. A detached task then joins
each camera view's chunks into one video. When the view policy asks for both
views, the task also merges the two joined videos into one file. A wait group
keeps the process alive until every join task has returned, and two progress
bars ("Downloaded" and "Joined") count the work done.

This project models the deterministic parts of that pipeline in `main.go`:

- `names.dfy` (module `Names`): the output file names `LEC %03d %s LEFT VIEW.mp4`,
  `LEC %03d %s RIGHT VIEW.mp4` and the merge target `LEC %03d %s`. It includes
  Go's `%03d` zero padding for non-negative numbers, a parser that reads a name
  back, and the round-trip and distinctness lemmas.
- `views.dfy` (module `Views`): the body of the detached join task. It decides
  which views are joined, under which names, and whether the two joined files
  are merged. The result is a trace of the calls the task makes to the external
  helpers, together with the two joined paths it holds at the end.
- `lectures.dfy` (module `Lectures`): the inclusive lecture range
  `lectures[start : end+1]`, optionally passed through the empty-lecture filter.
- `pipeline.dfy` (module `Pipeline`): the wait group and the two progress bars
  as the class `Progress`, whose methods are `joinWg.Add(1)`,
  `downloadBar.Increment()` and the task's two deferred calls. `Run` is the
  whole pipeline processed one playlist at a time, proved against the
  specification function `RunSpec`. The lemmas beside it count the helper calls
  of a whole run.
- `wrappers.dfy` (module `Wrappers`): an `Option` type.

The helpers whose code is not part of this model are parameters of the model
functions. They are `DownloadPlaylist` followed by `CreateTempM3U8File` (the
`download` parameter), `JoinChunksFromM3U8` (the `joinChunks` parameter, whose
returned path may be empty) and `removeEmptyLectures` (the `removeEmpty`
parameter). Each is modelled as a total, deterministic function of its
arguments: it always returns, and the same arguments give the same result.
Beyond that, nothing is assumed about the results; for example, a join may
return `""`. `JoinViews` returns nothing the task uses, so its calls are only
recorded in the trace.

Points where the code's behaviour is easy to misread:

- The merge target passed to `JoinViews` is `LEC %03d %s`, with no `.mp4`
  (main.go:124). Whether `JoinViews` adds an extension is not visible.
- The code increments the "Downloaded" bar for every dequeued playlist
  (main.go:106-108). There is no failure path, so the model has no failed
  fetches, and the download count of a run equals the number of playlists.
- The code compares the policy string with `"right"`, `"left"` and `"both"`
  exactly. Any other string joins every present view and never merges. The
  model keeps this behaviour and proves it.

## Model

| member | source | states |
|---|---|---|
| `Names.Decimal` | main.go:117 | the decimal digits that `%d` prints for a non-negative number are never empty |
| `Names.DecimalShape` | main.go:117 | the decimal consists only of digits, and its first digit is `0` only for zero (no leading zeros) |
| `Names.DecimalLength` | main.go:117 | the decimal of `n` has at most `k` digits exactly when `n < 10^k` |
| `Names.DecimalRoundTrip` | main.go:117 | reading the decimal of `n` back gives `n` |
| `Names.ParseLeadingZeros` | main.go:117 | zeros put in front of a digit string do not change its value |
| `Names.Pad3Shape` | main.go:117 | `%03d` never truncates: it is the full decimal preceded only by zeros, and at least three digits wide |
| `Names.Pad3Width` | main.go:117 | `%03d` is exactly three digits below 1000, and from 1000 on it is the plain decimal of four or more digits |
| `Names.Pad3Digits` | main.go:117 | below 1000, `%03d` spells the hundreds, tens and units digits, in that order |
| `Names.Pad3RoundTrip` | main.go:117 | reading the `%03d` field back gives the sequence number |
| `Names.Pad3Injective` | main.go:117 | different sequence numbers give different `%03d` fields |
| `Names.CombinedNameRoundTrip` | main.go:124 | parsing `LEC %03d %s` gives back exactly the sequence number and the title |
| `Names.CombinedNameInjective` | main.go:124 | two merge targets are equal only when their sequence numbers and titles are equal |
| `Names.ViewNamesRoundTrip` | main.go:117-120 | parsing a LEFT or RIGHT VIEW name gives back the sequence number and the title with ` LEFT VIEW.mp4` or ` RIGHT VIEW.mp4` attached |
| `Names.SamePlaylistNamesDistinct` | main.go:117-124 | the LEFT name, the RIGHT name and the merge target of one playlist are pairwise different |
| `Names.LeftNeverRight` | main.go:117-120 | no LEFT VIEW name equals any RIGHT VIEW name, whatever the two playlists are |
| `Names.DistinctSeqNosDistinctNames` | main.go:117-124 | playlists with different sequence numbers never request the same file name, in any combination of LEFT, RIGHT and merge target |
| `Views.JoinStepInto` | main.go:116-121 | a guarded join asks for chunks to be joined into a name iff it is selected and the name is its output, and it never merges |
| `Views.JoinTask` | main.go:111-127 | one join task makes at most three helper calls |
| `Views.LeftJoinedIff` | main.go:115-118 | the LEFT VIEW file is requested iff the first view file is non-empty and the policy is not `"right"`. It is joined from the first view's manifest; otherwise `left` stays `""` |
| `Views.RightJoinedIff` | main.go:115-121 | the RIGHT VIEW file is requested iff the second view file is non-empty and the policy is not `"left"`. It is joined from the second view's manifest; otherwise `right` stays `""` |
| `Views.JoinedPaths` | main.go:115-121 | `left` is what the join helper returned for the first view's manifest and the LEFT VIEW name exactly when the task's trace contains a join into that name, and `""` otherwise; `right` is the same for the second view and the RIGHT VIEW name |
| `Views.CombineIff` | main.go:123-125 | a merge is requested iff both joined paths are non-empty and the policy is exactly `"both"`. It merges those two paths into `LEC %03d %s` |
| `Views.CombineNeedsBothViews` | main.go:116-125 | a merge implies policy `"both"`, both view files present and both single-view files requested |
| `Views.UnrecognisedPolicyJoinsAllNeverCombines` | main.go:116-123 | a policy other than `"left"`, `"right"` or `"both"` joins every present view and never merges |
| `Views.ParsePolicy` | main.go:116-123 | a policy string is unrecognised exactly when it is none of `"both"`, `"left"`, `"right"` |
| `Views.TaskFollowsPolicyTable` | main.go:115-125 | with both manifests present and every join yielding a path, the task's calls are exactly those in the policy table (both: LEFT, RIGHT, merge; left: LEFT; right: RIGHT; other: LEFT, RIGHT), in that order |
| `Views.SingleViewRecording` | main.go:115-125 | with the second view absent and policy `"both"`, the only call is the LEFT VIEW join |
| `Lectures.LectureRange` | main.go:58-60 | the slice succeeds iff `0 <= start <= end+1 <= len`. It then holds `end-start+1` lectures in order, first `lectures[start]` and last `lectures[end]` |
| `Lectures.ChosenLectures` | main.go:56-61 | the range is taken first, with or without skipping, so bad bounds fail either way. Without skipping it is the plain inclusive range; with skipping it is the filter applied to that range |
| `Pipeline.Progress.constructor` | main.go:83-101 | the wait group and both bars start at zero, and the bars' total is the number of playlists |
| `Pipeline.Progress.Add` | main.go:134 | `joinWg.Add(1)` raises the outstanding count by exactly one, keeps outstanding + joined = added, and changes nothing else |
| `Pipeline.Progress.DownloadFinished` | main.go:108 | the "Downloaded" bar rises by one and nothing else changes |
| `Pipeline.Progress.TaskFinished` | main.go:112-113 | the deferred `Done()` lowers outstanding by exactly one and the "Joined" bar rises by one, whatever the task joined. Outstanding + joined = added is kept |
| `Pipeline.RunSpec` | main.go:101-138 | one join task per playlist; task `i` is the task for `playlists[i]` |
| `Pipeline.RunSpecOrder` | main.go:103-135 | task `i` of a run is the join task on the manifests downloaded for `playlists[i]` (an index correspondence, not the order in which tasks start) |
| `Pipeline.Run` | main.go:101-138 | the sequential run yields exactly `RunSpec`'s tasks. Afterwards the wait group's counter is 0 and both bars equal the number of playlists |
| `Pipeline.TaskCounts` | main.go:111-127 | one task makes one single-view join per selected view, and one merge exactly when both paths are non-empty under `"both"` |
| `Pipeline.TaskCountsAllSucceed` | main.go:115-125 | with both views present and every join succeeding: two joins and one merge under `"both"`, one join and no merge under `"left"` or `"right"` |
| `Pipeline.RunCallBounds` | main.go:101-138 | a whole run makes at most two single-view joins and one merge per playlist, and no merge at all unless the policy is `"both"` |
| `Pipeline.RunCallsAllSucceed` | main.go:101-138 | with every playlist dual-view and every join succeeding: 2N joins and N merges under `"both"`, N joins and no merge under `"left"` or `"right"` |

## Left out

- Version flag and flag parsing (main.go:22-29): process I/O outside the pipeline.
- The `ffmpeg` lookup (main.go:31-34), the log file (main.go:37-43), creation of the temporary directory (main.go:72-75) and all console output (main.go:45-47, 142-147): operating-system I/O.
- Slide download (main.go:63-68) and the catalogue and login helpers (`LoginAndSetToken`, `GetCourses`, `ChooseCourse`, `GetLectures`, `ChooseLectures`, `GetConfig`, `GetPlaylist`): network and interactive calls whose code is not part of this model.
- Rendering of the `mpb` progress bars, their decorators and priorities (main.go:81-99, 139): a UI library. Only the bars' counts and totals are kept.
- Goroutines, the bounded channel `playlistJobs`, `close`, and the blocking of `joinWg.Wait` (main.go:79, 102-140): the model runs the playlists one at a time. It does not cover interleavings, backpressure, or which worker takes which playlist.
- `DownloadPlaylist`, `CreateTempM3U8File`, `JoinChunksFromM3U8`, `JoinViews` and `removeEmptyLectures`: not part of this model. They are parameters or recorded calls, and nothing is assumed about their results (a join may return `""`).
- `Pipeline.Run`: assumes the worker pool has at least one worker (`config.NumWorkers >= 1`, main.go:78). With no workers and at least one playlist, the channel is unbuffered and nothing receives from it, so the first send (main.go:135) blocks for ever and nothing is downloaded. A negative count makes `make` panic at main.go:79. In both cases the final counts that `Run` states are never reached.
- Hangs and panics in those helpers: they are modelled as total, deterministic functions, so the final counter values of `Pipeline.Run` hold only when every call returns. A helper that hangs leaves `joinWg.Wait()` (main.go:138) blocked for ever. A panic inside the join task (main.go:111-127) runs the deferred `Done()` and bar increment, and then ends the process.
- `Playlist`: only the sequence number and title are modelled. Negative sequence numbers, which `%03d` would print with a sign inside the width, are excluded by using `nat`.
- `Lectures.LectureRange`: Go allows a slice's upper bound to reach the capacity of the underlying array, not just its length. The capacity is not visible here, so the model bounds the slice by the length.
- `Pipeline.Progress.Add`: requires `added < total`. The source's loop calls `Add(1)` once per playlist, and the bars' total is that count. A wait group on its own would accept more calls.
- `Pipeline.Progress.TaskFinished`: requires an earlier download without a finished task. In Go, a `Done()` with no matching `Add` would panic, and the source never makes one.
