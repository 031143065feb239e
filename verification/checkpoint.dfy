/** What the runs of the pipeline leave in the state file, in the job's record and in the
    deduplication cache (internal/application/usecases/transcode_usecase.go,
    internal/application/services/state_service.go). */
module CheckpointRuns {
  import opened Options
  import opened JobStates
  import opened Ladders
  import opened Encoding
  import opened Pipelines
  import J = Jobs
  import R = Retrying

  // ------------------------------------------------------------------ the input's hash

  ghost predicate HashOk(c: Config, s: State)
  {
    && (s.job.hash == "" || s.job.hash == c.hash)
    && s.stored <= {c.hash}
    && (s.pc.Ending? && s.pc.attempt.Finished? && s.job.hash != "" ==> c.hash in s.stored)
  }

  lemma PreludeKeepsHash(c: Config, s: State, e: Env)
    requires HashOk(c, s) && (s.pc.Idle? || s.pc.AtHash? || s.pc.AtDedup? || s.pc.AtAnalysis? || s.pc.AtSeparate?)
    ensures HashOk(c, WorkStep(c, s, e))
  {}

  lemma LoopKeepsHash(c: Config, s: State, e: Env)
    requires HashOk(c, s) && (s.pc.AtVariant? || s.pc.AtEncode? || s.pc.AtRecord? || s.pc.AtPartial? || s.pc.AtMaster?)
    ensures HashOk(c, WorkStep(c, s, e))
  {}

  lemma EndKeepsHash(c: Config, s: State, e: Env)
    requires HashOk(c, s) && (s.pc.AtFinal? || s.pc.AtFinish? || s.pc.Ending?)
    ensures HashOk(c, WorkStep(c, s, e))
  {}

  lemma {:induction false} RunHash(c: Config, events: seq<Event>)
    ensures HashOk(c, Run(c, events))
  {
    if events != [] {
      var s := Run(c, events[..|events| - 1]);
      RunHash(c, events[..|events| - 1]);
      match events[|events| - 1]
      case Work(e) =>
        if s.pc.AtFinal? || s.pc.AtFinish? || s.pc.Ending? {
          EndKeepsHash(c, s, e);
        } else if s.pc.AtVariant? || s.pc.AtEncode? || s.pc.AtRecord? || s.pc.AtPartial? || s.pc.AtMaster? {
          LoopKeepsHash(c, s, e);
        } else {
          PreludeKeepsHash(c, s, e);
        }
      case _ =>
    }
  }

  /** Main result: the record never holds any hash but the input's; in a process that has
      not crashed it holds that one whenever hash_computation is marked, in memory or on
      disk; and under no other hash is the job put in the deduplication cache. */
  lemma HashIsTheInputs(c: Config, events: seq<Event>)
    ensures var s := Run(c, events);
            && (s.job.hash == "" || s.job.hash == c.hash)
            && (Active(s) && HashComputation in s.mem.steps && !s.past.crashed ==> s.job.hash == c.hash)
            && (s.disk.Some? && HashComputation in s.disk.value.steps && !s.past.crashed ==> s.job.hash == c.hash)
            && s.stored <= {c.hash}
  {
    RunHash(c, events);
    RunInv(c, events);
  }

  /** Main result: deduplication takes the job for a duplicate exactly if the input's hash
      is in the cache at that moment. */
  lemma DuplicateExactlyWhen(c: Config, events: seq<Event>, e: Env)
    requires var s := Run(c, events); s.pc.AtDedup? && Deduplication !in s.mem.steps && s.job.hash != ""
    ensures var t := Run(c, events + [Work(e)]);
            (t.pc.Ending? && t.pc.attempt.Duplicate?) <==> c.hash in e.cache
  {
    RunHash(c, events);
    RunExtends(c, events, Work(e));
  }

  /** Main result: a job that went through finalization is in the cache under its input's
      hash exactly if its record still holds one, as it does unless the process crashed. */
  lemma FinishedIsCached(c: Config, events: seq<Event>)
    requires Run(c, events).pc.Ending? && Run(c, events).pc.attempt.Finished?
    ensures var s := Run(c, events);
            && (s.job.hash != "" ==> s.stored == {c.hash})
            && (!s.past.crashed ==> s.job.hash == c.hash)
  {
    RunHash(c, events);
    RunFinal(c, events);
    RunInv(c, events);
  }

  // ------------------------------------------------------------- the final checkpoint

  ghost predicate FinalOk(s: State)
  {
    s.pc.Ending? ==>
      match s.pc.attempt
      case Finished(_, failures) =>
        s.mem.status == (if failures then PartlyCompleted else Completed) && s.mem.steps == PIPELINE
      case Duplicate(_) => s.mem.status == Completed && Deduplication in s.mem.steps
      case _ => true
  }

  lemma WorkKeepsFinal(c: Config, s: State, e: Env)
    requires FinalOk(s) && Inv(c, s)
    ensures FinalOk(WorkStep(c, s, e))
  {
    match s.pc
    case AtFinish(failures) =>
      MarkInOrder(s.mem.(status := if failures then PartlyCompleted else Completed), 5);
    case Ending(_) =>
    case _ => OnlyFinishFinishes(c, s, e);
  }

  lemma OnlyFinishFinishes(c: Config, s: State, e: Env)
    requires !s.pc.AtFinish? && !s.pc.Ending?
    ensures var t := WorkStep(c, s, e);
            t.pc.Ending? ==>
              && !t.pc.attempt.Finished?
              && (t.pc.attempt.Duplicate? ==> t.mem.status == Completed && Deduplication in t.mem.steps)
  {}

  lemma {:induction false} RunFinal(c: Config, events: seq<Event>)
    ensures FinalOk(Run(c, events))
  {
    if events != [] {
      RunFinal(c, events[..|events| - 1]);
      RunInv(c, events[..|events| - 1]);
      match events[|events| - 1]
      case Work(e) => WorkKeepsFinal(c, Run(c, events[..|events| - 1]), e);
      case _ =>
    }
  }

  /** Main result: at the end of a successful attempt the state in memory says so, with
      all six steps marked; and so does the file, unless the last save failed or the
      heartbeat wrote an overtaken copy over it. */
  lemma FinalCheckpoint(c: Config, events: seq<Event>)
    requires Run(c, events).pc.Ending?
    ensures var s := Run(c, events);
            && (s.pc.attempt.Finished? ==>
                  && s.mem.status == (if s.pc.attempt.failures then PartlyCompleted else Completed)
                  && s.mem.steps == [HashComputation, Deduplication, Analysis, MasterPlaylist, Cleanup, Finalization])
            && (s.pc.attempt.Duplicate? ==> s.mem.status == Completed && Deduplication in s.mem.steps)
            && (!s.saves.missed && !s.saves.lagging ==> s.disk.Some? && SameListings(s.disk.value, s.mem))
  {
    RunFinal(c, events);
    RunSaves(c, events);
  }

  /** Main result: while the steps run the job is RUNNING, and at the end its record says
      what the attempt came to. */
  lemma RecordTells(c: Config, events: seq<Event>)
    ensures var s := Run(c, events);
            && (Active(s) && !s.pc.AtFinish? && !s.pc.Ending? ==> s.job.status == J.Running)
            && (s.pc.Ending? && s.pc.attempt.Broken? ==> s.job.status == J.Running)
            && (s.pc.Ending? && s.pc.attempt.Duplicate? ==> s.job.status == J.Completed && s.job.completed)
            && (s.pc.Ending? && s.pc.attempt.Finished? ==>
                  && s.job.described && s.job.completed
                  && s.job.status == (if s.pc.attempt.failures then J.PartialSuccess else J.Completed)
                  && (s.pc.attempt.failures ==> s.job.error == Some(J.JobError(J.PartialEncoding, "encoding"))))
  {
    RunRecord(c, events);
  }

  // ------------------------------------------------------------ where attempts fail

  /** The steps at which an attempt fails, each with its reason. */
  predicate Fails(c: Config, s: State, e: Env)
  {
    match s.pc
    case AtHash => HashComputation !in s.mem.steps && (!e.ok || !e.saved)
    case AtDedup =>
      Deduplication !in s.mem.steps && (s.job.hash == "" || (s.job.hash !in e.cache && !e.saved))
    case AtAnalysis => !e.ok
    case AtSeparate => !e.ok
    case AtVariant(i, t) => i >= |Variants(c)| && (t.chosen == [] || !e.ok)
    case AtMaster(v) => v.Partial?
    case _ => false
  }

  lemma PreludeFails(c: Config, s: State, e: Env)
    requires s.pc.AtHash? || s.pc.AtDedup? || s.pc.AtAnalysis? || s.pc.AtSeparate?
    ensures var t := WorkStep(c, s, e);
            (t.pc.Ending? && t.pc.attempt.Broken?) <==> Fails(c, s, e)
    ensures Fails(c, s, e) ==> WorkStep(c, s, e).pc.attempt.err == e.err
  {}

  lemma EncodingFails(c: Config, s: State, e: Env)
    requires s.pc.AtVariant? || s.pc.AtEncode? || s.pc.AtRecord?
    ensures var t := WorkStep(c, s, e);
            && ((t.pc.Ending? && t.pc.attempt.Broken?) <==> Fails(c, s, e))
            && (Fails(c, s, e) ==> t.pc.attempt.err == e.err && t.playlist == s.playlist)
            && (s.pc.AtVariant? && s.pc.i >= |Variants(c)| && !Fails(c, s, e) ==>
                  && t.playlist == s.pc.tally.chosen
                  && (if s.pc.tally.failed == [] then t.pc.AtMaster? else t.pc.AtPartial?))
  {}

  lemma EndFails(c: Config, s: State, e: Env)
    requires s.pc.AtPartial? || s.pc.AtMaster? || s.pc.AtFinal? || s.pc.AtFinish?
    ensures var t := WorkStep(c, s, e);
            (t.pc.Ending? && t.pc.attempt.Broken?) <==> Fails(c, s, e)
    ensures Fails(c, s, e) ==> WorkStep(c, s, e).pc.attempt.err == e.err
  {}

  /** Main result: a step ends the attempt in failure exactly at these points and for
      these reasons, with the error of that step; no save, encoding or partial success
      elsewhere does. */
  lemma FailsExactlyWhen(c: Config, events: seq<Event>, e: Env)
    requires Active(Run(c, events)) && !Run(c, events).pc.Ending?
    ensures var s, t := Run(c, events), Run(c, events + [Work(e)]);
            && ((t.pc.Ending? && t.pc.attempt.Broken?) <==> Fails(c, s, e))
            && (Fails(c, s, e) ==> t.pc.attempt.err == e.err)
  {
    var s := Run(c, events);
    RunExtends(c, events, Work(e));
    if s.pc.AtVariant? || s.pc.AtEncode? || s.pc.AtRecord? {
      EncodingFails(c, s, e);
    } else if s.pc.AtPartial? || s.pc.AtMaster? || s.pc.AtFinal? || s.pc.AtFinish? {
      EndFails(c, s, e);
    } else {
      PreludeFails(c, s, e);
    }
  }

  /** Main result: `process` returns exactly when the heartbeat goroutine is between two
      updates; until then it waits, and nothing of an update can come after it. */
  lemma StopWaits(c: Config, events: seq<Event>, e: Env)
    requires Run(c, events).pc.Ending?
    ensures var s, t := Run(c, events), Run(c, events + [Work(e)]);
            && (t.pc.Idle? <==> s.heart.Waiting?)
            && (t.pc.Idle? ==> t.last == Some(s.pc.attempt) && t.heart.Off? && t.disk == s.disk)
            && (!t.pc.Idle? ==> t == s)
  {
    RunExtends(c, events, Work(e));
  }

  // -------------------------------------------------------- what a heartbeat may lose

  ghost predicate SavesOk(s: State)
  {
    Active(s) ==>
      && s.disk.Some?
      && (!s.saves.missed ==> s.mem == s.saves.latest)
      && (!s.saves.lagging ==> SameListings(s.disk.value, s.saves.latest))
      && (s.heart.Loaded? && !s.saves.overtaken ==> SameListings(s.heart.state, s.saves.latest))
  }

  lemma PreludeKeepsSaves(c: Config, s: State, e: Env)
    requires SavesOk(s) && (s.pc.Idle? || s.pc.AtHash?)
    ensures SavesOk(WorkStep(c, s, e))
  {}

  lemma DedupKeepsSaves(c: Config, s: State, e: Env)
    requires SavesOk(s) && s.pc.AtDedup?
    ensures SavesOk(WorkStep(c, s, e))
  {}

  lemma AnalysisKeepsSaves(c: Config, s: State, e: Env)
    requires SavesOk(s) && (s.pc.AtAnalysis? || s.pc.AtSeparate?)
    ensures SavesOk(WorkStep(c, s, e))
  {}

  lemma LoopKeepsSaves(c: Config, s: State, e: Env)
    requires SavesOk(s) && (s.pc.AtVariant? || s.pc.AtEncode? || s.pc.AtRecord?)
    ensures SavesOk(WorkStep(c, s, e))
  {}

  lemma EndKeepsSaves(c: Config, s: State, e: Env)
    requires SavesOk(s) && (s.pc.AtPartial? || s.pc.AtMaster? || s.pc.AtFinal? || s.pc.AtFinish? || s.pc.Ending?)
    ensures SavesOk(WorkStep(c, s, e))
  {}

  lemma OtherKeepsSaves(c: Config, s: State, ev: Event)
    requires SavesOk(s) && !ev.Work?
    ensures SavesOk(Next(c, s, ev))
  {}

  lemma {:induction false} RunSaves(c: Config, events: seq<Event>)
    ensures SavesOk(Run(c, events))
  {
    if events != [] {
      var s, ev := Run(c, events[..|events| - 1]), events[|events| - 1];
      RunSaves(c, events[..|events| - 1]);
      match ev
      case Work(e) =>
        if s.pc.AtVariant? || s.pc.AtEncode? || s.pc.AtRecord? {
          LoopKeepsSaves(c, s, e);
        } else if s.pc.AtPartial? || s.pc.AtMaster? || s.pc.AtFinal? || s.pc.AtFinish? || s.pc.Ending? {
          EndKeepsSaves(c, s, e);
        } else if s.pc.AtAnalysis? || s.pc.AtSeparate? {
          AnalysisKeepsSaves(c, s, e);
        } else if s.pc.AtDedup? {
          DedupKeepsSaves(c, s, e);
        } else {
          PreludeKeepsSaves(c, s, e);
        }
      case _ => OtherKeepsSaves(c, s, ev);
    }
  }

  /** Every copy is an earlier version of what was saved last, with the same status until
      the attempt's last step. */
  ghost predicate OrderOk(s: State)
  {
    Active(s) ==>
      && s.disk.Some? && Earlier(s.disk.value, s.saves.latest) && Earlier(s.saves.latest, s.mem)
      && (s.heart.Loaded? ==> Earlier(s.heart.state, s.saves.latest))
      && (!s.pc.Ending? ==>
            && s.saves.latest.status == s.mem.status == s.disk.value.status
            && (s.heart.Loaded? ==> s.heart.state.status == s.mem.status))
  }

  /** Copies that are said to be out of date are. */
  ghost predicate LagOk(s: State)
  {
    Active(s) ==>
      && (s.saves.lagging ==> s.disk.Some? && !SameListings(s.disk.value, s.saves.latest))
      && (s.heart.Loaded? && s.saves.overtaken ==> !SameListings(s.heart.state, s.saves.latest))
  }

  /** A main step saves the state in memory as it then is, or leaves the file alone. */
  ghost predicate SavesOrNot(s: State, t: State)
  {
    && Active(t) && t.heart == s.heart && Earlier(s.mem, t.mem) && (!t.pc.Ending? ==> t.mem.status == s.mem.status)
    && ((t.disk == s.disk && t.saves == s.saves.(missed := t.saves.missed))
        || (t.disk == Some(t.mem) && t.saves == NoteSave(s.saves, t.mem, true)))
  }

  lemma SavesOrNotKeeps(s: State, t: State)
    requires Active(s) && !s.pc.Ending? && OrderOk(s) && LagOk(s) && SavesOrNot(s, t)
    ensures OrderOk(t) && LagOk(t)
  {}

  lemma PreludeSavesOrNot(c: Config, s: State, e: Env)
    requires s.pc.AtHash? || s.pc.AtDedup? || s.pc.AtAnalysis? || s.pc.AtSeparate?
    requires Extends(c, s, WorkStep(c, s, e))
    ensures SavesOrNot(s, WorkStep(c, s, e))
  {
    if s.pc.AtSeparate? {
      StatusStays(s.mem, FittingBoth(AV_TABLE, c.width, c.height), e.works);
    }
  }

  lemma {:induction false} StatusStays(m: Snapshot, qs: seq<QualitySpec>, works: string -> bool)
    ensures MarkTracks(m, qs, works).status == m.status
  {
    if qs != [] {
      StatusStays(m, qs[..|qs| - 1], works);
    }
  }

  lemma LoopSavesOrNot(c: Config, s: State, e: Env)
    requires s.pc.AtVariant? || s.pc.AtEncode? || s.pc.AtRecord?
    requires Extends(c, s, WorkStep(c, s, e))
    ensures SavesOrNot(s, WorkStep(c, s, e))
  {}

  lemma EndSavesOrNot(c: Config, s: State, e: Env)
    requires s.pc.AtPartial? || s.pc.AtMaster? || s.pc.AtFinal? || s.pc.AtFinish?
    requires Extends(c, s, WorkStep(c, s, e))
    ensures SavesOrNot(s, WorkStep(c, s, e))
  {}

  lemma WorkKeepsOrder(c: Config, s: State, e: Env)
    requires Inv(c, s) && OrderOk(s) && LagOk(s)
    ensures OrderOk(WorkStep(c, s, e)) && LagOk(WorkStep(c, s, e))
  {
    if Active(s) && !s.pc.Ending? {
      WorkExtends(c, s, e);
      if s.pc.AtVariant? || s.pc.AtEncode? || s.pc.AtRecord? {
        LoopSavesOrNot(c, s, e);
      } else if s.pc.AtPartial? || s.pc.AtMaster? || s.pc.AtFinal? || s.pc.AtFinish? {
        EndSavesOrNot(c, s, e);
      } else {
        PreludeSavesOrNot(c, s, e);
      }
      SavesOrNotKeeps(s, WorkStep(c, s, e));
    }
  }

  lemma OtherKeepsOrder(c: Config, s: State, ev: Event)
    requires SavesOk(s) && OrderOk(s) && LagOk(s) && !ev.Work?
    ensures OrderOk(Next(c, s, ev)) && LagOk(Next(c, s, ev))
  {}

  lemma {:induction false} RunOrder(c: Config, events: seq<Event>)
    ensures OrderOk(Run(c, events)) && LagOk(Run(c, events))
  {
    if events != [] {
      var before, ev := events[..|events| - 1], events[|events| - 1];
      RunOrder(c, before);
      match ev
      case Work(e) =>
        RunInv(c, before);
        WorkKeepsOrder(c, Run(c, before), e);
      case _ =>
        RunSaves(c, before);
        OtherKeepsOrder(c, Run(c, before), ev);
    }
  }

  /** Main result: while an attempt runs, the file lists exactly what the main goroutine
      saved last if and only if it is not the case that since then the heartbeat has
      written back a copy which it had loaded before a save that changed the listings;
      and unless a save failed, what was saved last is the state in memory. */
  lemma DiskHoldsLastSave(c: Config, events: seq<Event>)
    requires Active(Run(c, events))
    ensures var s := Run(c, events);
            && s.disk.Some?
            && (SameListings(s.disk.value, s.saves.latest) <==> !s.saves.lagging)
            && (!s.saves.missed ==> s.mem == s.saves.latest)
  {
    RunSaves(c, events);
    RunOrder(c, events);
  }

  /** Where the main goroutine saves whatever it finds: before and after each encoding,
      after the encoder's return, and at the end. */
  predicate SavesHere(c: Config, s: State, e: Env)
  {
    match s.pc
    case AtVariant(i, _) => i < |Variants(c)| && Variants(c)[i].name !in s.mem.complete
    case AtRecord(i, _, _) => i < |Variants(c)|
    case AtPartial(v) => v.Partial?
    case AtSeparate => e.ok
    case AtMaster(_) => true
    case AtFinish(_) => true
    case _ => false
  }

  /** Main result: a save there puts the state in memory on disk, whatever was there. */
  lemma SaveReachesDisk(c: Config, events: seq<Event>, e: Env)
    requires SavesHere(c, Run(c, events), e) && e.saved
    ensures var t := Run(c, events + [Work(e)]); t.disk == Some(t.mem)
    ensures Run(c, events).pc.AtVariant? ==> Run(c, events + [Work(e)]).pc.AtEncode?
  {
    RunExtends(c, events, Work(e));
  }

  /** Steps of the main goroutine do not touch the copy that the heartbeat holds. */
  lemma {:induction false} CopyStays(c: Config, events: seq<Event>, mid: seq<Event>, copy: Snapshot)
    requires Run(c, events).heart == Loaded(copy) && forall ev :: ev in mid ==> ev.Work?
    ensures Run(c, events + mid).heart == Loaded(copy)
  {
    if mid == [] {
      assert events + mid == events;
    } else {
      var less, ev := mid[..|mid| - 1], mid[|mid| - 1];
      assert ev in mid && events + less + [ev] == events + mid;
      CopyStays(c, events, less, copy);
      RunExtends(c, events + less, ev);
      WorkKeepsCopy(c, Run(c, events + less), ev.e);
    }
  }

  lemma WorkKeepsCopy(c: Config, s: State, e: Env)
    requires s.heart.Loaded?
    ensures WorkStep(c, s, e).heart == s.heart
  {}

  /** Main result: whatever the main goroutine does between its load and its save, a
      heartbeat update leaves exactly the listings that it read, with the new time. */
  lemma HeartbeatKeepsListings(c: Config, events: seq<Event>, mid: seq<Event>, now: int)
    requires Run(c, events).heart.Waiting? && Run(c, events).disk.Some? && forall ev :: ev in mid ==> ev.Work?
    ensures var read := Run(c, events).disk.value;
            var left := Run(c, events + [HeartLoad] + mid + [HeartSave(now, true)]).disk;
            left.Some? && SameListings(left.value, read) && left.value.heartbeat == now
  {
    RunExtends(c, events, HeartLoad);
    CopyStays(c, events + [HeartLoad], mid, Run(c, events).disk.value);
    RunExtends(c, events + [HeartLoad] + mid, HeartSave(now, true));
  }

  /** The update that is lost: a duplicate is COMPLETED and saved as such, but a heartbeat
      that had loaded the file before makes it "processing" again, and so it stays. */
  lemma StaleHeartbeatUndoes(c: Config, owner: string, now: int)
    ensures var fine := Env(true, true, map[c.hash := owner], Done, _ => true, "");
            var s := Run(c, [Attempt(true, true, 0, ""), Work(fine), HeartLoad, Work(fine),
                             HeartSave(now, true), Work(fine)]);
            && s.pc.Idle? && s.last.Some? && s.last.value.Duplicate? && s.job.status == J.Completed
            && s.disk.Some? && s.disk.value.status == Processing && Deduplication !in s.disk.value.steps
  {
    var fine := Env(true, true, map[c.hash := owner], Done, _ => true, "");
    var a, w := Attempt(true, true, 0, ""), Work(fine);
    RunExtends(c, [], a);
    RunExtends(c, [] + [a], w);
    HashFirst(c, [] + [a], fine);
    assert [] + [a] + [w] == [a, w];
    LostUpdate(c, [a, w], fine, now);
    assert [a, w] + [HeartLoad] + [w] + [HeartSave(now, true)] + [w] == [a, w, HeartLoad, w, HeartSave(now, true), w];
  }

  lemma LostUpdate(c: Config, events: seq<Event>, e: Env, now: int)
    requires var s := Run(c, events);
             && s.pc.AtDedup? && s.mem.steps == [HashComputation] && s.disk == Some(s.mem) && s.heart.Waiting?
             && s.mem.status == Processing && s.job.hash != "" && s.job.hash in e.cache
    requires e.saved
    ensures var s := Run(c, events + [HeartLoad] + [Work(e)] + [HeartSave(now, true)] + [Work(e)]);
            && s.pc.Idle? && s.last.Some? && s.last.value.Duplicate? && s.job.status == J.Completed
            && s.disk.Some? && s.disk.value.status == Processing && Deduplication !in s.disk.value.steps
  {
    RunExtends(c, events, HeartLoad);
    RunExtends(c, events + [HeartLoad], Work(e));
    RunExtends(c, events + [HeartLoad] + [Work(e)], HeartSave(now, true));
    RunExtends(c, events + [HeartLoad] + [Work(e)] + [HeartSave(now, true)], Work(e));
  }

  lemma HashFirst(c: Config, events: seq<Event>, e: Env)
    requires var s := Run(c, events);
             s.pc.AtHash? && s.mem.steps == [] && s.mem.status == Processing && s.heart.Waiting? && e.ok && e.saved
    ensures var t := Run(c, events + [Work(e)]);
            && t.pc.AtDedup? && t.mem.steps == [HashComputation] && t.disk == Some(t.mem) && t.heart.Waiting?
            && t.mem.status == Processing && t.job.hash == c.hash
  {
    RunExtends(c, events, Work(e));
  }
}
