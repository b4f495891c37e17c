/**
 * The body of the detached join task: which views of a downloaded playlist
 * are joined, with which output names, and whether the two joined files are
 * merged into one.
 *
 * The external muxing helper that joins one view's chunks is not part of
 * this model; it is a parameter `joinChunks(manifest, output)` returning the
 * path it produced, which may be empty. The helper that merges two joined
 * files returns nothing the task uses, so its calls are only recorded.
 */
module Views {
  import opened Names

  /** The fields of a parsed playlist that the join task reads. */
  datatype Playlist = Playlist(seqNo: nat, title: string)

  /** A downloaded playlist: per view, the path of a local chunk manifest ("" when absent). */
  datatype M3U8File = M3U8File(playlist: Playlist, firstViewFile: string, secondViewFile: string)

  /** One call the task makes to an external helper. */
  datatype Call =
    | JoinChunks(manifest: string, output: string)
    | JoinViews(left: string, right: string, output: string)

  /** The calls a task made, in order, and the paths it holds in `left` and `right` at the end. */
  datatype TaskResult = TaskResult(calls: seq<Call>, left: string, right: string)

  type Joiner = (string, string) -> string

  /**
   * One guarded join: when `selected`, the chunks of `manifest` are joined
   * into `output` and the helper's returned path is kept; otherwise no call
   * is made and the path stays empty.
   */
  function JoinStep(selected: bool, manifest: string, output: string, joinChunks: Joiner): (seq<Call>, string)
  {
    if selected then ([JoinChunks(manifest, output)], joinChunks(manifest, output)) else ([], "")
  }

  /** Runs the join task on `file` under the view policy `views`. */
  function JoinTask(file: M3U8File, views: string, joinChunks: Joiner): (t: TaskResult)
    ensures |t.calls| <= 3
  {
    var p := file.playlist;
    var (leftCalls, left) :=
      JoinStep(file.firstViewFile != "" && views != "right", file.firstViewFile, LeftViewName(p.seqNo, p.title), joinChunks);
    var (rightCalls, right) :=
      JoinStep(file.secondViewFile != "" && views != "left", file.secondViewFile, RightViewName(p.seqNo, p.title), joinChunks);
    var combineCalls :=
      if left != "" && right != "" && views == "both" then [JoinViews(left, right, CombinedName(p.seqNo, p.title))] else [];
    TaskResult(leftCalls + rightCalls + combineCalls, left, right)
  }

  /** Some call of the trace joins chunks into `output`. */
  predicate JoinsInto(calls: seq<Call>, output: string) {
    exists i :: 0 <= i < |calls| && calls[i].JoinChunks? && calls[i].output == output
  }

  /** Some call of the trace merges two joined files. */
  predicate Combines(calls: seq<Call>) {
    exists i :: 0 <= i < |calls| && calls[i].JoinViews?
  }

  lemma TraceAppend(a: seq<Call>, b: seq<Call>)
    ensures forall o :: JoinsInto(a + b, o) <==> JoinsInto(a, o) || JoinsInto(b, o)
    ensures Combines(a + b) <==> Combines(a) || Combines(b)
  {
    forall o ensures JoinsInto(a + b, o) ==> JoinsInto(a, o) || JoinsInto(b, o) {
      if JoinsInto(a + b, o) {
        var i :| 0 <= i < |a + b| && (a + b)[i].JoinChunks? && (a + b)[i].output == o;
        if i >= |a| { assert b[i - |a|] == (a + b)[i]; }
      }
    }
    forall o ensures JoinsInto(b, o) ==> JoinsInto(a + b, o) {
      if JoinsInto(b, o) {
        var i :| 0 <= i < |b| && b[i].JoinChunks? && b[i].output == o;
        assert (a + b)[|a| + i] == b[i];
      }
    }
    if Combines(a + b) {
      var i :| 0 <= i < |a + b| && (a + b)[i].JoinViews?;
      if i >= |a| { assert b[i - |a|] == (a + b)[i]; }
    }
    if Combines(b) {
      var i :| 0 <= i < |b| && b[i].JoinViews?;
      assert (a + b)[|a| + i] == b[i];
    }
    if Combines(a) {
      var i :| 0 <= i < |a| && a[i].JoinViews?;
      assert (a + b)[i] == a[i];
    }
    forall o ensures JoinsInto(a, o) ==> JoinsInto(a + b, o) {
      if JoinsInto(a, o) {
        var i :| 0 <= i < |a| && a[i].JoinChunks? && a[i].output == o;
        assert (a + b)[i] == a[i];
      }
    }
  }

  /** A guarded join writes `o` exactly when it is selected and `o` is its output. */
  lemma JoinStepInto(selected: bool, manifest: string, output: string, joinChunks: Joiner, o: string)
    ensures JoinsInto(JoinStep(selected, manifest, output, joinChunks).0, o) <==> selected && o == output
    ensures !Combines(JoinStep(selected, manifest, output, joinChunks).0)
  {
    var r := JoinStep(selected, manifest, output, joinChunks);
    if selected {
      assert r.0[0] == JoinChunks(manifest, output);
    }
  }

  /** The task's trace split into its three guarded parts. */
  lemma TaskParts(file: M3U8File, views: string, joinChunks: Joiner, o: string)
    ensures var t := JoinTask(file, views, joinChunks);
      var p := file.playlist;
      var a := JoinStep(file.firstViewFile != "" && views != "right", file.firstViewFile, LeftViewName(p.seqNo, p.title), joinChunks);
      var b := JoinStep(file.secondViewFile != "" && views != "left", file.secondViewFile, RightViewName(p.seqNo, p.title), joinChunks);
      var c := if t.left != "" && t.right != "" && views == "both" then [JoinViews(t.left, t.right, CombinedName(p.seqNo, p.title))] else [];
      && t.calls == a.0 + b.0 + c && t.left == a.1 && t.right == b.1
      && (JoinsInto(t.calls, o) <==> JoinsInto(a.0, o) || JoinsInto(b.0, o))
      && (Combines(t.calls) <==> Combines(c))
      && (Combines(t.calls) <==> t.left != "" && t.right != "" && views == "both")
  {
    var t := JoinTask(file, views, joinChunks);
    var p := file.playlist;
    var a := JoinStep(file.firstViewFile != "" && views != "right", file.firstViewFile, LeftViewName(p.seqNo, p.title), joinChunks);
    var b := JoinStep(file.secondViewFile != "" && views != "left", file.secondViewFile, RightViewName(p.seqNo, p.title), joinChunks);
    var c := if t.left != "" && t.right != "" && views == "both" then [JoinViews(t.left, t.right, CombinedName(p.seqNo, p.title))] else [];
    TraceAppend(a.0 + b.0, c);
    TraceAppend(a.0, b.0);
    JoinStepInto(file.firstViewFile != "" && views != "right", file.firstViewFile, LeftViewName(p.seqNo, p.title), joinChunks, o);
    JoinStepInto(file.secondViewFile != "" && views != "left", file.secondViewFile, RightViewName(p.seqNo, p.title), joinChunks, o);
    assert forall i :: 0 <= i < |c| ==> c[i].JoinViews?;
    if c != [] {
      assert c[0].JoinViews?;
    }
  }

  /**
   * The LEFT VIEW file is requested iff the first view is present and the
   * policy is not "right"; it is then joined from the first view's manifest.
   * Otherwise `left` stays empty.
   */
  lemma LeftJoinedIff(file: M3U8File, views: string, joinChunks: Joiner)
    ensures var t := JoinTask(file, views, joinChunks);
      var name := LeftViewName(file.playlist.seqNo, file.playlist.title);
      && (JoinsInto(t.calls, name) <==> file.firstViewFile != "" && views != "right")
      && (forall c :: c in t.calls && c.JoinChunks? && c.output == name ==> c.manifest == file.firstViewFile)
      && (!JoinsInto(t.calls, name) ==> t.left == "")
  {
    var p := file.playlist;
    var t := JoinTask(file, views, joinChunks);
    var name := LeftViewName(p.seqNo, p.title);
    var selected := file.firstViewFile != "" && views != "right";
    var a := JoinStep(selected, file.firstViewFile, name, joinChunks);
    var b := JoinStep(file.secondViewFile != "" && views != "left", file.secondViewFile, RightViewName(p.seqNo, p.title), joinChunks);
    TaskParts(file, views, joinChunks, name);
    SamePlaylistNamesDistinct(p.seqNo, p.title);
    JoinStepInto(selected, file.firstViewFile, name, joinChunks, name);
    JoinStepInto(file.secondViewFile != "" && views != "left", file.secondViewFile, RightViewName(p.seqNo, p.title), joinChunks, name);
    assert JoinsInto(t.calls, name) <==> selected;
    assert !selected ==> t.left == "";
  }

  /**
   * The RIGHT VIEW file is requested iff the second view is present and the
   * policy is not "left"; it is then joined from the second view's manifest.
   * Otherwise `right` stays empty.
   */
  lemma RightJoinedIff(file: M3U8File, views: string, joinChunks: Joiner)
    ensures var t := JoinTask(file, views, joinChunks);
      var name := RightViewName(file.playlist.seqNo, file.playlist.title);
      && (JoinsInto(t.calls, name) <==> file.secondViewFile != "" && views != "left")
      && (forall c :: c in t.calls && c.JoinChunks? && c.output == name ==> c.manifest == file.secondViewFile)
      && (!JoinsInto(t.calls, name) ==> t.right == "")
  {
    var p := file.playlist;
    var name := RightViewName(p.seqNo, p.title);
    TaskParts(file, views, joinChunks, name);
    SamePlaylistNamesDistinct(p.seqNo, p.title);
    JoinStepInto(file.firstViewFile != "" && views != "right", file.firstViewFile, LeftViewName(p.seqNo, p.title), joinChunks, name);
    JoinStepInto(file.secondViewFile != "" && views != "left", file.secondViewFile, name, joinChunks, name);
  }

  /**
   * The paths the task holds are what the helper returned for the joins in
   * its trace: a view's path is the helper's result on that view's manifest
   * and name when the trace joins into that name, and empty otherwise.
   */
  lemma JoinedPaths(file: M3U8File, views: string, joinChunks: Joiner)
    ensures var t := JoinTask(file, views, joinChunks);
      var p := file.playlist;
      var leftName, rightName := LeftViewName(p.seqNo, p.title), RightViewName(p.seqNo, p.title);
      && t.left == (if JoinsInto(t.calls, leftName) then joinChunks(file.firstViewFile, leftName) else "")
      && t.right == (if JoinsInto(t.calls, rightName) then joinChunks(file.secondViewFile, rightName) else "")
  {
    LeftJoinedIff(file, views, joinChunks);
    RightJoinedIff(file, views, joinChunks);
  }

  /**
   * The merge is requested iff both joined paths are non-empty and the
   * policy is exactly "both"; it merges those two paths into the
   * label-less combine target.
   */
  lemma CombineIff(file: M3U8File, views: string, joinChunks: Joiner)
    ensures var t := JoinTask(file, views, joinChunks);
      && (Combines(t.calls) <==> t.left != "" && t.right != "" && views == "both")
      && (forall c :: c in t.calls && c.JoinViews? ==>
            c == JoinViews(t.left, t.right, CombinedName(file.playlist.seqNo, file.playlist.title)))
  {
    TaskParts(file, views, joinChunks, "");
  }

  /** A combine needs both views joined, so it never happens under "left" or "right", or when a view is missing. */
  lemma CombineNeedsBothViews(file: M3U8File, views: string, joinChunks: Joiner)
    ensures var t := JoinTask(file, views, joinChunks);
      Combines(t.calls) ==>
        && views == "both"
        && file.firstViewFile != "" && file.secondViewFile != ""
        && JoinsInto(t.calls, LeftViewName(file.playlist.seqNo, file.playlist.title))
        && JoinsInto(t.calls, RightViewName(file.playlist.seqNo, file.playlist.title))
  {
    CombineIff(file, views, joinChunks);
    LeftJoinedIff(file, views, joinChunks);
    RightJoinedIff(file, views, joinChunks);
  }

  /**
   * Any policy other than exactly "left" or "right" (an unrecognised one
   * included) joins every present view; only exactly "both" can combine.
   */
  lemma UnrecognisedPolicyJoinsAllNeverCombines(file: M3U8File, views: string, joinChunks: Joiner)
    requires views != "left" && views != "right" && views != "both"
    ensures var t := JoinTask(file, views, joinChunks);
      var p := file.playlist;
      && (file.firstViewFile != "" ==> JoinsInto(t.calls, LeftViewName(p.seqNo, p.title)))
      && (file.secondViewFile != "" ==> JoinsInto(t.calls, RightViewName(p.seqNo, p.title)))
      && !Combines(t.calls)
  {
    LeftJoinedIff(file, views, joinChunks);
    RightJoinedIff(file, views, joinChunks);
    CombineIff(file, views, joinChunks);
  }

  /* ---------- the policy table ---------- */

  /** The three policy strings the code compares against, and every other string. */
  datatype Policy = Both | LeftOnly | RightOnly | Unrecognised(text: string)

  function ParsePolicy(views: string): (p: Policy)
    ensures p.Unrecognised? <==> views != "both" && views != "left" && views != "right"
  {
    if views == "both" then Both
    else if views == "left" then LeftOnly
    else if views == "right" then RightOnly
    else Unrecognised(views)
  }

  function Wanted(p: Policy): (w: (bool, bool, bool))
  {
    match p
    case Both => (true, true, true)
    case LeftOnly => (true, false, false)
    case RightOnly => (false, true, false)
    case Unrecognised(_) => (true, true, false)
  }

  /**
   * When both manifests are present and every join succeeds (returns a
   * non-empty path), the task's trace is exactly what the policy table
   * asks for: the wanted single-view joins, LEFT before RIGHT, then the
   * wanted merge of their two outputs.
   */
  lemma TaskFollowsPolicyTable(file: M3U8File, views: string, joinChunks: Joiner)
    requires file.firstViewFile != "" && file.secondViewFile != ""
    requires forall m, o :: joinChunks(m, o) != ""
    ensures var t := JoinTask(file, views, joinChunks);
      var p := file.playlist;
      var w := Wanted(ParsePolicy(views));
      var l := joinChunks(file.firstViewFile, LeftViewName(p.seqNo, p.title));
      var r := joinChunks(file.secondViewFile, RightViewName(p.seqNo, p.title));
      t.calls ==
        (if w.0 then [JoinChunks(file.firstViewFile, LeftViewName(p.seqNo, p.title))] else [])
        + (if w.1 then [JoinChunks(file.secondViewFile, RightViewName(p.seqNo, p.title))] else [])
        + (if w.2 then [JoinViews(l, r, CombinedName(p.seqNo, p.title))] else [])
  {
  }

  /** A recording with only the first view, under "both", joins that view alone and never combines. */
  lemma SingleViewRecording(file: M3U8File, joinChunks: Joiner)
    requires file.firstViewFile != "" && file.secondViewFile == ""
    ensures JoinTask(file, "both", joinChunks).calls ==
      [JoinChunks(file.firstViewFile, LeftViewName(file.playlist.seqNo, file.playlist.title))]
  {
  }
}
