/** Results across components: what the pipeline's checkpoints mean for the disk cleanup,
    and what its runs mean for the text of the master playlist. */
module Services {
  import opened Options
  import opened JobStates
  import opened Ladders
  import opened Encoding
  import opened Playlists
  import P = Pipelines
  import D = DiskCleanup
  import K = CheckpointRuns

  // ------------------------------------------------------------- the playlist file

  lemma PrefixFromLadder(vs: seq<Variant>)
    requires vs <= LADDER
    ensures FromLadder(vs)
  {
    forall i, j | 0 <= i < j < |vs| ensures vs[i].height < vs[j].height {
      LadderClimbs(i, j);
    }
  }

  lemma SelectionFromLadder(height: int)
    ensures FromLadder(Selected(height)) && DistinctNames(Selected(height))
  {
    SelectedIsPrefix(height);
    PrefixFromLadder(Selected(height));
  }

  lemma {:induction false} ListedClimbs(vs: seq<Variant>, n: nat, complete: seq<string>, dir: Dir)
    requires Climbing(vs) && n <= |vs|
    ensures var l := Listed(vs, n, complete, dir);
            && Climbing(l)
            && forall i :: 0 <= i < |l| ==> l[i] in vs && (n < |vs| ==> l[i].height < vs[n].height)
  {
    if n > 0 {
      ListedClimbs(vs, n - 1, complete, dir);
    }
  }

  /** Whatever the checkpoint and however the encodings go, the variants that a call of
      encodeWithResume lists are rungs of the ladder in order. */
  lemma ChosenFromLadder(c: Site, start: Scene, height: int, outcomes: nat -> Outcome)
    requires start.tally == NoTally && NoRepeats(start.state.complete)
    ensures FromLadder(ResumeRun(c, start, Selected(height), outcomes, |Selected(height)|).tally.chosen)
  {
    var vs := Selected(height);
    SelectionFromLadder(height);
    CallSplitsVariants(c, start, vs, outcomes);
    var s := ResumeRun(c, start, vs, outcomes, |vs|);
    ListedClimbs(vs, |vs|, s.state.complete, s.dir);
  }

  /** In encodeWithResume, or in what stepEncoding does with its result. */
  predicate InLoop(pc: P.Pc) { pc.AtVariant? || pc.AtEncode? || pc.AtRecord? || pc.AtPartial? || pc.AtMaster? }

  /** The loop began from a checkpoint that lists no quality twice. */
  ghost predicate EntryOk(s: P.State)
  {
    InLoop(s.pc) ==> NoRepeats(s.past.entry.state.complete)
  }

  ghost predicate PlaylistOk(s: P.State) { FromLadder(s.playlist) && EntryOk(s) }

  lemma LoopKeepsPlaylist(c: P.Config, s: P.State, e: P.Env)
    requires PlaylistOk(s) && P.LoopRuns(c, s) && s.pc.AtVariant?
    ensures PlaylistOk(P.WorkStep(c, s, e))
  {
    if s.pc.i >= |P.Variants(c)| {
      ChosenFromLadder(c.site, s.past.entry, c.height, P.Script(s.past.outcomes));
    }
  }

  ghost predicate SamePlaylist(s: P.State, t: P.State)
  {
    t.playlist == s.playlist && t.past.entry == s.past.entry
    && (InLoop(t.pc) ==> InLoop(s.pc))
  }

  lemma AnalysisKeepsPlaylist(c: P.Config, s: P.State, e: P.Env)
    requires PlaylistOk(s) && s.pc.AtAnalysis? && NoRepeats(s.mem.complete)
    ensures PlaylistOk(P.WorkStep(c, s, e))
  {}

  lemma EncodingKeepsPlaylist(c: P.Config, s: P.State, e: P.Env)
    requires s.pc.AtEncode? || s.pc.AtRecord?
    ensures SamePlaylist(s, P.WorkStep(c, s, e))
  {}

  lemma PreludeKeepsPlaylist(c: P.Config, s: P.State, e: P.Env)
    requires s.pc.Idle? || s.pc.AtHash? || s.pc.AtDedup? || s.pc.AtSeparate? || s.pc.AtPartial?
    ensures SamePlaylist(s, P.WorkStep(c, s, e))
  {}

  lemma EndKeepsPlaylist(c: P.Config, s: P.State, e: P.Env)
    requires s.pc.AtMaster? || s.pc.AtFinal? || s.pc.AtFinish? || s.pc.Ending?
    ensures SamePlaylist(s, P.WorkStep(c, s, e))
  {}

  lemma WorkKeepsPlaylist(c: P.Config, s: P.State, e: P.Env)
    requires PlaylistOk(s) && P.LoopRuns(c, s) && (P.Active(s) ==> NoRepeats(s.mem.complete))
    ensures PlaylistOk(P.WorkStep(c, s, e))
  {
    match s.pc
    case AtVariant(_, _) => LoopKeepsPlaylist(c, s, e);
    case AtAnalysis => AnalysisKeepsPlaylist(c, s, e);
    case AtEncode(_, _) => EncodingKeepsPlaylist(c, s, e);
    case AtRecord(_, _, _) => EncodingKeepsPlaylist(c, s, e);
    case AtMaster(_) => EndKeepsPlaylist(c, s, e);
    case AtFinal(_) => EndKeepsPlaylist(c, s, e);
    case AtFinish(_) => EndKeepsPlaylist(c, s, e);
    case Ending(_) => EndKeepsPlaylist(c, s, e);
    case _ => PreludeKeepsPlaylist(c, s, e);
  }

  lemma {:induction false} RunPlaylist(c: P.Config, events: seq<P.Event>)
    ensures PlaylistOk(P.Run(c, events))
  {
    if events != [] {
      var before := events[..|events| - 1];
      RunPlaylist(c, before);
      match events[|events| - 1]
      case Work(e) =>
        P.RunInv(c, before);
        P.RunLoops(c, before);
        WorkKeepsPlaylist(c, P.Run(c, before), e);
      case _ =>
    }
  }

  /** Main result: at every moment of every run the master playlist that the pipeline has
      written reads back as its variants, with strictly increasing bandwidths. */
  lemma PlaylistAlwaysReads(c: P.Config, events: seq<P.Event>)
    ensures var vs := P.Run(c, events).playlist;
            && Readable(vs, false) && ReadMaster(MasterText(vs, false)) == Some(Streams(vs, false))
            && forall i, j :: 0 <= i < j < |vs| ==> Streams(vs, false)[i].bandwidth < Streams(vs, false)[j].bandwidth
  {
    RunPlaylist(c, events);
    LadderPlaylist(P.Run(c, events).playlist, false);
  }

  /** Main result: when encodeWithResume returns nil, the text is that of the selected
      variants, all of which it lists; no other selection has this text. */
  lemma PlaylistTextOnSuccess(c: P.Config, events: seq<P.Event>, vs: seq<Variant>)
    requires P.ResumeReturnsNil(c, P.Run(c, events)) && FromLadder(vs)
    ensures MasterText(vs, false) == MasterText(P.Run(c, events).playlist, false) <==> vs == Selected(c.height)
  {
    P.ResumeTransparency(c, events);
    SelectionFromLadder(c.height);
    if MasterText(vs, false) == MasterText(P.Run(c, events).playlist, false) {
      TextDeterminesVariants(vs, P.Run(c, events).playlist, false, false);
    }
  }

  /** Main result: at the top of every turn the loop of encodeWithResume has called
      EncodeQuality once for each variant so far that was not completed when the loop
      began, and for no other: a success is encoded again exactly if the checkpoint that
      the loop began with lacks it. */
  lemma CallsExactly(c: P.Config, events: seq<P.Event>)
    requires P.Run(c, events).pc.AtVariant?
    ensures var s := P.Run(c, events);
            && s.pc.i <= |P.Variants(c)|
            && s.past.calls == StillOpen(P.Variants(c), s.pc.i, s.past.entry.state.complete)
  {
    var s := P.Run(c, events);
    RunPlaylist(c, events);
    P.RunLoops(c, events);
    SelectionFromLadder(c.height);
    ResumeAccounted(c.site, s.past.entry, P.Variants(c), P.Script(s.past.outcomes), s.pc.i);
  }

  /** A reader gets one stream for each output, in order, and the stream's URI below the
      hls directory is that output's playlist. */
  ghost predicate Matches(hls: string, outputs: seq<QualityOutput>, read: Option<seq<Stream>>)
  {
    && read.Some? && |read.value| == |outputs|
    && forall k :: 0 <= k < |outputs| ==> outputs[k].playlist == hls + "/" + read.value[k].uri
  }

  /** Main result: what encodeWithResume reports and what a reader gets from the playlist
      that it has written are the same files. */
  lemma OutputsMatchPlaylist(c: P.Config, events: seq<P.Event>)
    requires P.Run(c, events).pc.AtMaster? && !c.hasAudio
    ensures var s := P.Run(c, events);
            && (s.pc.verdict.Encoded? || s.pc.verdict.Partial?)
            && Matches(c.site.hls, s.pc.verdict.outputs, ReadMaster(MasterText(s.playlist, false)))
  {
    var s, vs := P.Run(c, events), P.Variants(c);
    P.RunInv(c, events);
    P.RunLoops(c, events);
    RunPlaylist(c, events);
    SelectionFromLadder(c.height);
    ResumeAccounted(c.site, s.past.entry, vs, P.Script(s.past.outcomes), |vs|);
    var end := ResumeRun(c.site, s.past.entry, vs, P.Script(s.past.outcomes), |vs|);
    assert s.playlist == end.tally.chosen && s.pc.verdict.outputs == end.tally.outputs;
    TextMatches(c.site.hls, s.playlist, s.pc.verdict.outputs);
  }

  lemma TextMatches(hls: string, vs: seq<Variant>, outputs: seq<QualityOutput>)
    requires FromLadder(vs) && |outputs| == |vs|
    requires forall k :: 0 <= k < |vs| ==> Describes(hls, outputs[k], vs[k].name, outputs[k].chunkCount)
    ensures Matches(hls, outputs, ReadMaster(MasterText(vs, false)))
  {
    LadderUsable(vs, false);
    MasterRoundTrip(vs, false);
    StreamsPresent(vs, false);
    UrisMatch(hls, vs, outputs, Streams(vs, false));
  }

  lemma UrisMatch(hls: string, vs: seq<Variant>, outputs: seq<QualityOutput>, streams: seq<Stream>)
    requires |outputs| == |vs| && AllPresented(streams, vs, false)
    requires forall k :: 0 <= k < |vs| ==> Describes(hls, outputs[k], vs[k].name, outputs[k].chunkCount)
    ensures Matches(hls, outputs, Some(streams))
  {
    forall k | 0 <= k < |vs| ensures outputs[k].playlist == hls + "/" + streams[k].uri {
      UriBelow(hls, vs[k].name, outputs[k], streams[k]);
    }
  }

  lemma UriBelow(hls: string, name: string, q: QualityOutput, s: Stream)
    requires Describes(hls, q, name, q.chunkCount) && s.uri == name + "/main.m3u8"
    ensures q.playlist == hls + "/" + s.uri
  {}

  // ------------------------------------------------------------------ disk cleanup

  /** Main result: when the last save of a successful attempt worked and no overtaken
      heartbeat undid it, the cleanup ranks the job as completed or partial as it ended. */
  lemma FinishedJobsAreRanked(c: P.Config, events: seq<P.Event>, info: D.JobInfo)
    requires P.Run(c, events).pc.Ending? && !P.Run(c, events).saves.missed && !P.Run(c, events).saves.lagging
    requires P.Run(c, events).disk.Some? && info.status == StatusText(P.Run(c, events).disk.value.status)
    ensures var a := P.Run(c, events).pc.attempt;
            && (a.Duplicate? || (a.Finished? && !a.failures) ==> D.Completed(info))
            && (a.Finished? && a.failures ==> D.Partial(info))
  {
    K.FinalCheckpoint(c, events);
  }

  /** Main result: the cleanup's rule "failed jobs first" never applies: a job none of
      whose attempts succeeded is ranked like one of unknown status, so below any
      completed job that is older than seven days. */
  lemma FailedJobsAreNotFirst(c: P.Config, events: seq<P.Event>, info: D.JobInfo, other: D.JobInfo,
                              emergency: bool, now: int)
    requires P.Run(c, events).disk.Some? && !P.Run(c, events).past.succeeded
    requires info.status == StatusText(P.Run(c, events).disk.value.status)
    ensures D.CleanupPriority(info, emergency, now) == if now - info.modTime > 30 * D.DAY then 50 else 20
    ensures other.status == "completed" && now - other.modTime > 7 * D.DAY ==> D.Before(other, info, emergency, now)
  {
    P.FailureIsNotOnDisk(c, events);
    NotAStatus();
  }

  /** Exactly the checkpoints of the size limit get the rank of failed jobs. */
  lemma FailedRank(s: Snapshot, info: D.JobInfo, emergency: bool, now: int)
    requires info.status == StatusText(s.status)
    ensures D.CleanupPriority(info, emergency, now) == 100 <==> s.status == SizeExceeded
  {
    NotAStatus();
  }

  lemma NotAStatus()
    ensures StatusText(Processing) == "processing" && StatusText(SizeExceeded) == "failed"
    ensures StatusText(Completed) == "completed" && StatusText(PartlyCompleted) == "partial_success"
    ensures forall s: Status ::
              StatusText(s) !in ["FAILED", "INTERRUPTED", "interrupted", "COMPLETED", "PARTIAL_SUCCESS"]
    ensures "processing" !in ["failed", "completed", "partial_success"]
    ensures "completed" !in ["failed", "partial_success"] && "partial_success" != "failed"
  {
    assert "processing"[0] == 'p' && "processing"[1] == 'r' && "partial_success"[1] == 'a';
  }
}
