/** Where runs of the pipeline lead: to the end of the job when an attempt meets no fault,
    to failure for ever when the hash is lost, and, by way of concrete runs, to states
    in which a promise is broken (internal/application/usecases/transcode_usecase.go,
    internal/application/usecases/separate_av_encoder.go). */
module Recoveries {
  import opened Options
  import opened JobStates
  import opened Ladders
  import opened Encoding
  import opened Pipelines
  import opened CheckpointRuns
  import R = Retrying

  /** Nothing goes wrong and the input is not a duplicate. */
  predicate Kind(c: Config, e: Env) { e.ok && e.saved && c.hash !in e.cache && e.outcome.Done? }

  ghost predicate Encodable(c: Config)
  {
    forall i :: 0 <= i < |Variants(c)| ==> c.site.full(Variants(c)[i].name) > 0
  }

  /** The guard of stepDeduplication: its input is the hash in the job's record, which
      the hash step stores unless the checkpoint says it is done. */
  predicate HashAvailable(s: State, m: Snapshot)
  {
    HashComputation !in m.steps || Deduplication in m.steps || s.job.hash != ""
  }

  /** No failure has been met so far in this attempt. */
  ghost predicate OnTrack(c: Config, s: State)
  {
    match s.pc
    case AtHash => HashAvailable(s, s.mem)
    case AtDedup => Deduplication in s.mem.steps || s.job.hash != ""
    case AtVariant(_, t) => t.failed == []
    case AtEncode(_, t) => t.failed == []
    case AtRecord(_, t, ok) => t.failed == [] && ok
    case AtPartial(_) => false
    case AtMaster(v) => v.Encoded?
    case Ending(a) => a.Finished?
    case _ => true
  }

  function Distance(c: Config, pc: Pc): nat
  {
    var n := |Variants(c)|;
    match pc
    case Idle => 0
    case Ending(_) => 1
    case AtFinish(_) => 2
    case AtFinal(_) => 3
    case AtMaster(_) => 4
    case AtPartial(_) => 5
    case AtVariant(i, _) => 6 + (if i < n then 3 * (n - i) else 0)
    case AtEncode(i, _) => 5 + (if i < n then 3 * (n - i) else 0)
    case AtRecord(i, _, _) => 4 + (if i < n then 3 * (n - i) else 0)
    case AtSeparate => 4
    case AtAnalysis => 7 + 3 * n
    case AtDedup => 8 + 3 * n
    case AtHash => 9 + 3 * n
  }

  lemma LoopStaysOnTrack(c: Config, s: State, e: Env)
    requires Inv(c, s) && Kind(c, e) && Encodable(c) && OnTrack(c, s)
    requires s.pc.AtVariant? || s.pc.AtEncode? || s.pc.AtRecord?
    ensures var t := WorkStep(c, s, e); OnTrack(c, t) && t.heart == s.heart && Distance(c, t.pc) < Distance(c, s.pc)
  {
    VariantsUsable(c);
    if s.pc.AtVariant? && s.pc.i >= |Variants(c)| {
      var vs := Variants(c);
      assert vs[..|vs|] == vs;
    }
  }

  lemma DedupStaysOnTrack(c: Config, s: State, e: Env)
    requires Inv(c, s) && HashOk(c, s) && Kind(c, e) && OnTrack(c, s) && s.pc.AtDedup?
    ensures var t := WorkStep(c, s, e); OnTrack(c, t) && t.heart == s.heart && Distance(c, t.pc) < Distance(c, s.pc)
  {}

  lemma OthersStayOnTrack(c: Config, s: State, e: Env)
    requires Inv(c, s) && HashOk(c, s) && Kind(c, e) && OnTrack(c, s) && Active(s) && !s.pc.Ending?
    requires !s.pc.AtVariant? && !s.pc.AtEncode? && !s.pc.AtRecord?
    ensures var t := WorkStep(c, s, e); OnTrack(c, t) && t.heart == s.heart && Distance(c, t.pc) < Distance(c, s.pc)
  {
    if s.pc.AtDedup? {
      DedupStaysOnTrack(c, s, e);
    }
  }

  /** An event of an attempt that meets no fault; heartbeats may fail. */
  predicate Smooth(c: Config, ev: Event)
  {
    match ev
    case Work(e) => Kind(c, e)
    case HeartLoad => true
    case HeartSave(_, _) => true
    case _ => false
  }

  /** How many steps of the main goroutine there are among the events. */
  function Steps(events: seq<Event>): nat
  {
    if events == [] then 0 else Steps(events[..|events| - 1]) + (if events[|events| - 1].Work? then 1 else 0)
  }

  /** The attempt has finished the job or is about to, or is nearer to it by its steps. */
  ghost predicate OnCourse(c: Config, s: State, limit: nat, steps: nat)
  {
    if s.pc.Idle? then s.last.Some? && s.last.value.Finished?
    else OnTrack(c, s) && (s.pc.Ending? || Distance(c, s.pc) + steps <= limit)
  }

  lemma WorkKeepsCourse(c: Config, s: State, e: Env, limit: nat, steps: nat)
    requires Inv(c, s) && HashOk(c, s) && Kind(c, e) && Encodable(c) && OnCourse(c, s, limit, steps)
    ensures OnCourse(c, WorkStep(c, s, e), limit, steps + 1)
  {
    if s.pc.AtVariant? || s.pc.AtEncode? || s.pc.AtRecord? {
      LoopStaysOnTrack(c, s, e);
    } else if Active(s) && !s.pc.Ending? {
      OthersStayOnTrack(c, s, e);
    }
  }

  lemma {:induction false} SmoothKeepsCourse(c: Config, before: seq<Event>, more: seq<Event>, limit: nat)
    requires Encodable(c) && OnCourse(c, Run(c, before), limit, 0) && forall ev :: ev in more ==> Smooth(c, ev)
    ensures OnCourse(c, Run(c, before + more), limit, Steps(more))
  {
    if more == [] {
      assert before + more == before;
    } else {
      var less, ev := more[..|more| - 1], more[|more| - 1];
      assert ev in more && (before + more)[..|before + more| - 1] == before + less;
      SmoothKeepsCourse(c, before, less, limit);
      RunInv(c, before + less);
      RunHash(c, before + less);
      match ev
      case Work(e) => WorkKeepsCourse(c, Run(c, before + less), e, limit, Steps(less));
      case _ =>
    }
  }

  /** The attempt fails, or will fail, for want of a hash. */
  predicate Doomed(s: State)
  {
    match s.pc
    case Idle => s.last.Some? && s.last.value.Broken?
    case AtHash => !HashAvailable(s, s.mem)
    case AtDedup => Deduplication !in s.mem.steps && s.job.hash == ""
    case Ending(a) => a.Broken?
    case _ => false
  }

  lemma {:induction false} SmoothKeepsDoomed(c: Config, before: seq<Event>, more: seq<Event>)
    requires Doomed(Run(c, before)) && forall ev :: ev in more ==> Smooth(c, ev)
    ensures Doomed(Run(c, before + more))
  {
    if more == [] {
      assert before + more == before;
    } else {
      assert more[|more| - 1] in more;
      assert (before + more)[..|before + more| - 1] == before + more[..|more| - 1];
      SmoothKeepsDoomed(c, before, more[..|more| - 1]);
    }
  }

  /** Main result, recovery: whatever happened before, an attempt that meets no fault
      finishes the job within 9 + 3 * |variants| steps, heartbeats notwithstanding, if
      the hash that deduplication needs can be had, and else fails there. It can always
      be had while the process lives, and by an attempt that does not load a checkpoint. */
  lemma Recovery(c: Config, events: seq<Event>, loads: bool, now: int, more: seq<Event>)
    requires Run(c, events).pc.Idle? && Encodable(c) && forall ev :: ev in more ==> Smooth(c, ev)
    ensures var s := Run(c, events);
            var t := Run(c, events + [Attempt(loads, true, now, "")] + more);
            && (!s.past.crashed ==> Hopeful(s, loads))
            && (Hopeful(s, loads) ==> OnCourse(c, t, 9 + 3 * |Variants(c)|, Steps(more)))
            && (!Hopeful(s, loads) ==> Doomed(t))
  {
    var s, ev := Run(c, events), Attempt(loads, true, now, "");
    RunInv(c, events);
    RunExtends(c, events, ev);
    if Hopeful(s, loads) {
      SmoothKeepsCourse(c, events + [ev], more, 9 + 3 * |Variants(c)|);
    } else {
      SmoothKeepsDoomed(c, events + [ev], more);
    }
  }

  /** The guard of stepDeduplication, looked at before the attempt. */
  predicate Hopeful(s: State, loads: bool) { !loads || s.disk.None? || HashAvailable(s, s.disk.value) }

  /** After that many steps the attempt is over, but for the heartbeat's last save. */
  lemma CourseEnds(c: Config, s: State, limit: nat, e: Env, now: int, saves: bool)
    requires Inv(c, s) && OnCourse(c, s, limit, limit)
    ensures var t := WorkStep(c, Next(c, s, HeartSave(now, saves)), e);
            t.pc.Idle? && t.last.Some? && t.last.value.Finished?
  {}

  // ------------------------------------------------------- without hope of a hash

  predicate HashLost(m: Snapshot) { HashComputation in m.steps && Deduplication !in m.steps }

  /** No attempt gets past deduplication. */
  predicate Stranded(s: State)
  {
    && s.disk.Some? && HashLost(s.disk.value) && s.job.hash == ""
    && (s.heart.Loaded? ==> HashLost(s.heart.state))
    && (s.pc.Idle? || HashLost(s.mem))
    && (s.pc.Idle? || s.pc.AtHash? || s.pc.AtDedup? || (s.pc.Ending? && s.pc.attempt.Broken?))
  }

  lemma StepKeepsStranded(c: Config, s: State, ev: Event)
    requires Stranded(s) && (ev.Attempt? ==> ev.loads)
    ensures Stranded(Next(c, s, ev))
  {}

  /** Main result: once the hash cannot be had, whatever happens, heartbeats, crashes and
      retries included, every attempt that loads the checkpoint fails at deduplication. */
  lemma {:induction false} StrandedForever(c: Config, events: seq<Event>, more: seq<Event>)
    requires Run(c, events).pc.Idle? && !Hopeful(Run(c, events), true)
    requires forall ev :: ev in more && ev.Attempt? ==> ev.loads
    ensures Stranded(Run(c, events + more))
  {
    if more == [] {
      assert events + more == events;
      RunInv(c, events);
    } else {
      var less, ev := more[..|more| - 1], more[|more| - 1];
      assert ev in more && events + less + [ev] == events + more;
      StrandedForever(c, events, less);
      RunExtends(c, events + less, ev);
      StepKeepsStranded(c, Run(c, events + less), ev);
    }
  }

  /** A crash between the hash step and deduplication does lead there. */
  lemma CrashLosesHash(c: Config, e: Env, now: int)
    requires Kind(c, e)
    ensures var s := Run(c, [Attempt(true, true, now, ""), Work(e), Crash]); s.pc.Idle? && !Hopeful(s, true)
  {
    var a := Attempt(true, true, now, "");
    RunExtends(c, [], a);
    RunExtends(c, [a], Work(e));
    RunExtends(c, [a, Work(e)], Crash);
    assert [] + [a] == [a] && [a] + [Work(e)] == [a, Work(e)] && [a, Work(e)] + [Crash] == [a, Work(e), Crash];
  }

  // ----------------------------------------------------- runs that break a promise

  const Fine := Env(true, true, map[], Done, _ => true, "")

  /** What an attempt leaves alone before it encodes; so far every save has worked. */
  ghost predicate SameWork(s: State, t: State)
  {
    && t.disk == Some(t.mem) && t.mem.complete == s.mem.complete && t.mem.failed == s.mem.failed
    && t.dir == s.dir && t.past.log == s.past.log && t.past.intact == s.past.intact && t.past.stale == s.past.stale
  }

  /** Where a hopeful, faultless attempt begins to encode. */
  ghost predicate BeginsToEncode(c: Config, s: State, t: State)
  {
    && t.pc == (if c.hasAudio then AtSeparate else AtVariant(0, NoTally))
    && t.disk == Some(t.mem) && Deduplication in t.mem.steps
    && t.mem.complete == (if s.disk.Some? then s.disk.value.complete else [])
    && t.mem.failed == (if s.disk.Some? then s.disk.value.failed else [])
    && t.dir == s.dir && t.past.log == s.past.log && t.past.intact == s.past.intact
    && t.past.stale == (s.past.stale || t.mem.complete != s.past.log)
  }

  lemma FineHash(c: Config, s: State)
    requires s.pc.AtHash? && s.disk == Some(s.mem) && HashAvailable(s, s.mem)
    ensures var t := HashStep(c, s, Fine);
            t.pc.AtDedup? && SameWork(s, t) && (Deduplication in t.mem.steps || t.job.hash != "")
  {}

  lemma FineDedup(s: State)
    requires s.pc.AtDedup? && s.disk == Some(s.mem) && (Deduplication in s.mem.steps || s.job.hash != "")
    ensures var t := DedupStep(s, Fine); t.pc.AtAnalysis? && SameWork(s, t) && Deduplication in t.mem.steps
  {}

  lemma FineAnalysis(c: Config, s: State)
    requires s.pc.AtAnalysis? && s.disk == Some(s.mem) && Deduplication in s.mem.steps
    ensures var t := AnalysisStep(c, s, Fine);
            && SameWork(s, t) && Deduplication in t.mem.steps
            && t.pc == if c.hasAudio then AtSeparate else AtVariant(0, NoTally)
  {}

  lemma PreludeWorks(c: Config, s: State)
    requires s.pc.Idle? && Hopeful(s, true)
    ensures var a := BeginAttempt(s, true, true, 0, "");
            var h := WorkStep(c, a, Fine);
            var d := WorkStep(c, h, Fine);
            BeginsToEncode(c, s, WorkStep(c, d, Fine))
  {
    var a := BeginAttempt(s, true, true, 0, "");
    FineHash(c, a);
    var h := HashStep(c, a, Fine);
    FineDedup(h);
    FineAnalysis(c, DedupStep(h, Fine));
  }

  lemma ReachEncoding(c: Config, events: seq<Event>) returns (more: seq<Event>)
    requires Run(c, events).pc.Idle? && Hopeful(Run(c, events), true)
    ensures BeginsToEncode(c, Run(c, events), Run(c, more))
  {
    var a, w := Attempt(true, true, 0, ""), Work(Fine);
    PreludeWorks(c, Run(c, events));
    RunExtends(c, events, a);
    RunExtends(c, events + [a], w);
    RunExtends(c, events + [a] + [w], w);
    RunExtends(c, events + [a] + [w] + [w], w);
    more := events + [a] + [w] + [w] + [w];
  }

  lemma CrashIsHopeful(c: Config, events: seq<Event>)
    requires Run(c, events).disk.Some? && Deduplication in Run(c, events).disk.value.steps
    ensures var s, t := Run(c, events), Run(c, events + [Crash]);
            t.pc.Idle? && Hopeful(t, true) && t.disk == s.disk && t.dir == s.dir && t.playlist == s.playlist
            && t.past.log == s.past.log && t.past.intact == s.past.intact && t.past.stale == s.past.stale
  {
    RunExtends(c, events, Crash);
  }

  /** A crash after an encoding and before its record: a success is encoded again. */
  lemma StaleWorkRepeats(c: Config) returns (events: seq<Event>)
    requires !c.hasAudio && c.site.full(Variants(c)[0].name) > 0
    ensures var s := Run(c, events);
            s.past.stale && s.pc.AtEncode? && s.pc.i < |Variants(c)| && Variants(c)[s.pc.i].name in s.past.log
  {
    VariantsUsable(c);
    var w := Work(Fine);
    var first := ReachEncoding(c, []);
    RunExtends(c, first, w);
    RunExtends(c, first + [w], w);
    assert Run(c, first + [w] + [w]).past.log == [Variants(c)[0].name];
    CrashIsHopeful(c, first + [w] + [w]);
    var again := ReachEncoding(c, first + [w] + [w] + [Crash]);
    RunExtends(c, again, w);
    events := again + [w];
  }

  ghost predicate AlwaysIntact(c: Config) { forall events :: CopiesIntact(Run(c, events)) }

  lemma {:induction false} TracksMarked(m: Snapshot, qs: seq<QualitySpec>, works: string -> bool, i: nat)
    requires i < |qs| && works(qs[i].name)
    ensures qs[i].name in MarkTracks(m, qs, works).complete
  {
    if i < |qs| - 1 {
      TracksMarked(m, qs[..|qs| - 1], works, i);
    }
  }

  lemma {:induction false} NoTracksMarked(m: Snapshot, qs: seq<QualitySpec>)
    ensures MarkTracks(m, qs, _ => false) == m
  {
    if qs != [] {
      NoTracksMarked(m, qs[..|qs| - 1]);
    }
  }

  lemma TracksOnDisk(c: Config, events: seq<Event>, q: QualitySpec)
    requires !OnlyCombined(c) && q == FittingBoth(AV_TABLE, c.width, c.height)[0]
    requires var s := Run(c, events);
             s.pc.AtSeparate? && s.mem.complete == [] && Deduplication in s.mem.steps
    ensures var t := Run(c, events + [Work(Fine)]);
            t.disk.Some? && q.name in t.disk.value.complete && Deduplication in t.disk.value.steps
  {
    var s, qs := Run(c, events), FittingBoth(AV_TABLE, c.width, c.height);
    RunExtends(c, events, Work(Fine));
    TracksMarked(s.mem, qs, Fine.works, 0);
    TracksExtend(s.mem, qs, Fine.works);
  }

  lemma FailureKeepsMark(c: Config, events: seq<Event>, q: QualitySpec)
    requires !OnlyCombined(c) && q == FittingBoth(AV_TABLE, c.width, c.height)[0]
    requires var s := Run(c, events); s.pc.AtSeparate? && q.name in s.mem.complete
    ensures !CopiesIntact(Run(c, events + [Work(Fine.(works := _ => false))]))
  {
    var qs, bad := FittingBoth(AV_TABLE, c.width, c.height), Fine.(works := _ => false);
    RunExtends(c, events, Work(bad));
    NoTracksMarked(Run(c, events).mem, qs);
    assert q.name in Managed(qs, _ => true) && q.name !in Managed(qs, bad.works);
    assert q.name in Run(c, events + [Work(bad)]).mem.complete;
  }

  /** With audio every attempt encodes every quality anew, and a failure leaves the mark. */
  lemma SeparateBreaksIntact(c: Config) returns (events: seq<Event>)
    requires !OnlyCombined(c)
    ensures !CopiesIntact(Run(c, events))
  {
    var q := FittingBoth(AV_TABLE, c.width, c.height)[0];
    var first := ReachEncoding(c, []);
    TracksOnDisk(c, first, q);
    CrashIsHopeful(c, first + [Work(Fine)]);
    var again := ReachEncoding(c, first + [Work(Fine)] + [Crash]);
    FailureKeepsMark(c, again, q);
    events := again + [Work(Fine.(works := _ => false))];
  }

  /** Main result: that the latest encoding of every quality listed in a copy of the
      checkpoint succeeded holds on all runs exactly when the input has no audio or the
      separate encoder selects nothing. */
  lemma IntactExactlyWhen(c: Config)
    ensures AlwaysIntact(c) <==> OnlyCombined(c)
  {
    if OnlyCombined(c) {
      forall events ensures CopiesIntact(Run(c, events)) {
        RunIntact(c, events);
      }
    } else {
      var events := SeparateBreaksIntact(c);
    }
  }

  /** Every quality selected for the job is among the completed ones. */
  ghost predicate JobComplete(c: Config, m: Snapshot)
  {
    if c.hasAudio then
      var qs := FittingBoth(AV_TABLE, c.width, c.height);
      forall i :: 0 <= i < |qs| ==> qs[i].name in m.complete
    else AllComplete(c, m)
  }

  ghost predicate FinishedIsComplete(c: Config)
  {
    forall events :: Run(c, events).pc.Ending? && Run(c, events).pc.attempt.Finished? ==>
      JobComplete(c, Run(c, events).mem)
  }

  /** With audio a job whose video encodings all failed is finalized as COMPLETED. */
  lemma FinishedWithoutVideo(c: Config) returns (events: seq<Event>)
    requires !OnlyCombined(c)
    ensures var s := Run(c, events);
            s.pc == Ending(R.Finished(s.past.hash, false)) && s.mem.complete == [] && !JobComplete(c, s.mem)
  {
    var bad, w := Fine.(works := _ => false), Work(Fine);
    var first := ReachEncoding(c, []);
    SeparateLeavesNothing(c, first);
    FineFinal(c, first + [Work(bad)]);
    FineFinish(c, first + [Work(bad)] + [w]);
    events := first + [Work(bad)] + [w] + [w];
    assert FittingBoth(AV_TABLE, c.width, c.height)[0].name !in Run(c, events).mem.complete;
  }

  lemma FineFinal(c: Config, events: seq<Event>)
    requires Run(c, events).pc.AtFinal? && Run(c, events).mem.failed == []
    ensures var s, t := Run(c, events), Run(c, events + [Work(Fine)]);
            t.pc == AtFinish(false) && t.mem.complete == s.mem.complete
  {
    RunExtends(c, events, Work(Fine));
  }

  lemma FineFinish(c: Config, events: seq<Event>)
    requires Run(c, events).pc == AtFinish(false)
    ensures var s, t := Run(c, events), Run(c, events + [Work(Fine)]);
            t.pc == Ending(R.Finished(t.past.hash, false)) && t.mem.complete == s.mem.complete
  {
    RunExtends(c, events, Work(Fine));
  }

  lemma SeparateLeavesNothing(c: Config, events: seq<Event>)
    requires var s := Run(c, events); s.pc.AtSeparate? && s.mem.complete == [] && s.mem.failed == []
    ensures var t := Run(c, events + [Work(Fine.(works := _ => false))]);
            t.pc.AtFinal? && t.mem.complete == [] && t.mem.failed == []
  {
    RunExtends(c, events, Work(Fine.(works := _ => false)));
    NoTracksMarked(Run(c, events).mem, FittingBoth(AV_TABLE, c.width, c.height));
  }

  /** Main result: that a job which ends through finalization has all its selected
      qualities holds on all runs exactly when the input has no audio or the separate
      encoder selects nothing. */
  lemma CompleteExactlyWhen(c: Config)
    ensures FinishedIsComplete(c) <==> OnlyCombined(c)
  {
    if OnlyCombined(c) {
      forall events | Run(c, events).pc.Ending? && Run(c, events).pc.attempt.Finished?
        ensures JobComplete(c, Run(c, events).mem)
      {
        if !c.hasAudio {
          FinalizedIsComplete(c, events);
        }
      }
    } else {
      var events := FinishedWithoutVideo(c);
    }
  }
}
