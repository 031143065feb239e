/** One attempt as the program runs it (internal/application/usecases/transcode_usecase.go):
    `process`, `executeSteps` and the step functions change the checkpoint, the job, the
    job's directory and the state file in place, while the heartbeat goroutine may act
    before each step. Every run of this code is a run of the machine in module
    Pipelines, so the results there hold of it. */
module Workers {
  import opened Options
  import opened JobStates
  import opened Ladders
  import opened Encoding
  import P = Pipelines
  import J = Jobs
  import R = Retrying

  /** What the heartbeat goroutine does. */
  datatype Beating = Load | Store(now: int, saves: bool)

  function BeatEvent(b: Beating): P.Event
  {
    match b
    case Load => P.HeartLoad
    case Store(now, saves) => P.HeartSave(now, saves)
  }

  function BeatEvents(bs: seq<Beating>): (r: seq<P.Event>)
    ensures |r| == |bs| && forall i :: 0 <= i < |bs| ==> r[i] == BeatEvent(bs[i])
  {
    seq(|bs|, i requires 0 <= i < |bs| => BeatEvent(bs[i]))
  }

  /** What one turn of the loop over the variants found or made. */
  datatype Turn = Failed | Missing | There(output: QualityOutput)

  function After(t: Tally, v: Variant, r: Turn): Tally
  {
    match r
    case Failed => Lose(t, v)
    case Missing => t
    case There(q) => t.(outputs := t.outputs + [q], chosen := t.chosen + [v])
  }

  lemma HeartRuns(c: P.Config, trace: seq<P.Event>)
    ensures P.Active(P.Run(c, trace)) ==> !P.Run(c, trace).heart.Off?
  {
    P.RunInv(c, trace);
  }

  class Worker {
    const c: P.Config
    const id: string
    const service: J.JobService
    const jobDir: JobDir
    const answers: nat -> P.Env         // of the environment, to each step
    const beats: nat -> seq<Beating>    // of the heartbeat goroutine, before each step
    var clock: nat
    var disk: Option<Snapshot>
    var playlist: seq<Variant>
    var state: JobState
    var heart: P.Heart
    ghost var last: Option<R.Attempt>
    var stored: set<string>             // the hashes under which the job is in the cache
    ghost var past: P.History
    ghost var saves: P.Saves
    ghost var trace: seq<P.Event>       // what happened so far

    ghost predicate Ready()
      reads this, service, service.jobs.Values
    {
      service.Valid() && id in service.jobs && jobDir.site == c.site
    }

    /** The machine's state if the main goroutine is at pc. */
    ghost function View(pc: P.Pc): P.State
      requires Ready()
      reads this, state, jobDir, service, service.jobs.Values
    {
      P.State(disk, jobDir.dir, playlist, state.View(), pc, heart, service.jobs[id].Record(), stored, last, past, saves)
    }

    ghost predicate At(pc: P.Pc)
      reads this, state, jobDir, service, service.jobs.Values
    {
      Ready() && View(pc) == P.Run(c, trace)
    }

    /** A job that has just been created. */
    constructor (c: P.Config, id: string, service: J.JobService, answers: nat -> P.Env, beats: nat -> seq<Beating>)
      requires service.Valid() && id in service.jobs && service.jobs[id].Record() == P.NewJob
      ensures At(P.Idle) && this.c == c && this.id == id && this.service == service
      ensures fresh(state) && fresh(jobDir)
    {
      this.c, this.id, this.service, this.answers, this.beats := c, id, service, answers, beats;
      jobDir := new JobDir(c.site);
      state := new JobState(Fresh(0));
      clock, disk, playlist, heart, stored := 0, None, [], P.Off, {};
      last, past, saves, trace := None, P.Init.past, P.Init.saves, [];
      new;
      assert trace == [] && P.Run(c, trace) == P.Init;
      assert jobDir.dir == map[] && state.View() == Fresh(0) && service.jobs[id].Record() == P.NewJob;
      assert View(P.Idle) == P.Init;
    }

    method Beat(b: Beating, ghost pc: P.Pc)
      requires At(pc)
      modifies this`disk, this`saves, this`heart, this`trace
      ensures At(pc) && trace == old(trace) + [BeatEvent(b)] && (b.Store? ==> !heart.Loaded?)
    {
      P.RunExtends(c, trace, BeatEvent(b));
      match b {
        case Load =>
          if heart.Waiting? && disk.Some? {
            heart, saves := P.Loaded(disk.value), saves.(overtaken := saves.lagging);
          }
        case Store(now, works) =>
          if heart.Loaded? {
            if works {
              disk := Some(JobStates.Beat(heart.state, now));
              saves := saves.(lagging := saves.overtaken);
            }
            heart := P.Waiting;
          }
      }
      trace := trace + [BeatEvent(b)];
    }

    /** The environment's answer for the next step; meanwhile the heartbeat may act. */
    method Ask(ghost pc: P.Pc) returns (e: P.Env)
      requires At(pc)
      modifies this`disk, this`saves, this`heart, this`trace, this`clock
      ensures At(pc) && e == answers(old(clock)) && trace == old(trace) + BeatEvents(beats(old(clock)))
    {
      e := answers(clock);
      var now := beats(clock);
      clock := clock + 1;
      for i := 0 to |now|
        invariant At(pc) && trace == old(trace) + BeatEvents(now[..i])
      {
        Beat(now[i], pc);
        assert BeatEvents(now[..i + 1]) == BeatEvents(now[..i]) + [BeatEvent(now[i])];
      }
      assert now[..|now|] == now;
    }

    /** The answer for the next step, with which the machine makes that step. */
    method Take(ghost pc: P.Pc) returns (e: P.Env, ghost s: P.State)
      requires At(pc)
      modifies this`disk, this`saves, this`heart, this`trace, this`clock
      ensures Ready() && s == View(pc) && P.Run(c, trace) == P.WorkStep(c, s, e)
    {
      e := Ask(pc);
      s := View(pc);
      P.RunExtends(c, trace, P.Work(e));
      trace := trace + [P.Work(e)];
    }

    method SaveState(e: P.Env) returns (saved: bool)
      modifies this`disk, this`saves
      ensures saved == e.saved && disk == if saved then Some(state.View()) else old(disk)
      ensures saves == P.NoteSave(old(saves), state.View(), e.saved)
    {
      saved := e.saved;
      saves := P.NoteSave(saves, state.View(), saved);
      if saved {
        disk := Some(Snapshot(state.status, state.stepsCompleted, state.qualitiesComplete,
                              state.qualitiesFailed, state.lastHeartbeat));
      }
    }

    method MarkAndSave(step: Step, e: P.Env) returns (saved: bool)
      modifies this`disk, this`saves, state
      ensures state.View() == MarkStep(old(state.View()), step)
      ensures saved == e.saved && disk == if saved then Some(state.View()) else old(disk)
      ensures saves == P.NoteSave(old(saves), state.View(), e.saved)
    {
      state.MarkStepCompleted(step);
      saved := SaveState(e);
    }

    method MarkUnlessDone(step: Step, e: P.Env)
      modifies this`disk, this`saves, state
      ensures state.View() == MarkStep(old(state.View()), step)
      ensures saves == if step in old(state.stepsCompleted) then old(saves)
                       else P.NoteSave(old(saves), state.View(), e.saved)
      ensures disk == if step in old(state.stepsCompleted) || !e.saved then old(disk) else Some(state.View())
    {
      var done := state.IsStepCompleted(step);
      if !done {
        var _ := MarkAndSave(step, e);
      }
    }

    /** A step that ends the job. */
    method Conclude(status: Status, step: Step, e: P.Env)
      modifies this`disk, this`saves, this`past, state
      ensures state.View() == MarkStep(old(state.View()).(status := status), step)
      ensures saves == P.NoteSave(old(saves), state.View(), e.saved)
      ensures disk == if e.saved then Some(state.View()) else old(disk)
      ensures past == old(past).(succeeded := true)
    {
      state.status := status;
      past := past.(succeeded := true);
      var _ := MarkAndSave(step, e);
    }

    method SetStatus(status: J.JobStatus)
      requires Ready()
      modifies service.jobs[id]
      ensures Ready() && service.jobs[id].Record() == J.WithStatus(old(service.jobs[id].Record()), status)
    {
      var _ := service.UpdateStatus(id, status);
    }

    method StepHashComputation() returns (err: Option<string>)
      requires At(P.AtHash) && HashComputation !in state.stepsCompleted
      modifies this, state, service.jobs[id]
      ensures state == old(state) && past.before == old(past.before)
      ensures At(if err.None? then P.AtDedup else P.Ending(R.Broken(err.value, past.hash)))
    {
      var e, s := Take(P.AtHash);
      if !e.ok {
        return Some(e.err);
      }
      var _ := service.SetHash(id, c.hash);
      past := past.(hash := c.hash);
      var saved := MarkAndSave(HashComputation, e);
      err := if saved then None else Some(e.err);
    }

    method StepDeduplication() returns (duplicate: bool, err: Option<string>)
      requires At(P.AtDedup) && Deduplication !in state.stepsCompleted
      modifies this, state, service.jobs[id]
      ensures state == old(state) && past.before == old(past.before)
      ensures At(if err.Some? then P.Ending(R.Broken(err.value, past.hash))
                 else if duplicate then P.Ending(R.Duplicate(past.hash)) else P.AtAnalysis)
    {
      var e, s := Take(P.AtDedup);
      if service.jobs[id].hash == "" {
        return false, Some(e.err);
      }
      if service.jobs[id].hash in e.cache {
        SetStatus(J.Completed);
        Conclude(Completed, Deduplication, e);
        return true, None;
      }
      var saved := MarkAndSave(Deduplication, e);
      return false, if saved then None else Some(e.err);
    }

    /** The analysis step, or the reloading of the video information on a resume. */
    method StepAnalysis() returns (err: Option<string>)
      requires At(P.AtAnalysis)
      modifies this, state
      ensures state == old(state) && past.before == old(past.before)
      ensures At(if err.Some? then P.Ending(R.Broken(err.value, past.hash))
                 else if c.hasAudio then P.AtSeparate else P.AtVariant(0, NoTally))
    {
      var e, s := Take(P.AtAnalysis);
      if !e.ok {
        return Some(e.err);
      }
      MarkUnlessDone(Analysis, e);
      if !c.hasAudio {
        past := P.EnterLoop(past, state.View(), jobDir.dir);
      }
      return None;
    }

    method EncodeWithResume() returns (v: Verdict, err: string)
      requires At(P.AtVariant(0, NoTally))
      modifies this, state, jobDir
      ensures state == old(state) && past.before == old(past.before)
      ensures At(if v.Encoded? then P.AtMaster(v) else if v.Partial? then P.AtPartial(v)
                 else P.Ending(R.Broken(err, past.hash)))
    {
      var vs := SelectVariants(c.width, c.height);
      var outputs: seq<QualityOutput>, successful: seq<Variant>, failed: seq<string> := [], [], [];
      for i := 0 to |vs|
        invariant At(P.AtVariant(i, Tally(outputs, successful, failed)))
        invariant state == old(state) && past.before == old(past.before)
      {
        var output := EncodeOne(i, vs, Tally(outputs, successful, failed));
        match output {
          case Failed => failed := failed + [vs[i].name];
          case Missing =>
          case There(q) => outputs, successful := outputs + [q], successful + [vs[i]];
        }
      }
      v, err := WritePlaylist(vs, Tally(outputs, successful, failed));
    }

    /** What encodeWithResume does after its loop. */
    method WritePlaylist(vs: seq<Variant>, t: Tally) returns (v: Verdict, err: string)
      requires vs == P.Variants(c) && At(P.AtVariant(|vs|, t))
      modifies this
      ensures state == old(state) && past.before == old(past.before)
      ensures At(if v.Encoded? then P.AtMaster(v) else if v.Partial? then P.AtPartial(v)
                 else P.Ending(R.Broken(err, past.hash)))
    {
      var e, s := Take(P.AtVariant(|vs|, t));
      assert P.Run(c, trace) == P.LoopExit(c, s, t, e);
      if |t.chosen| > 0 {
        if !e.ok {
          return NoPlaylist, e.err;
        }
        playlist := t.chosen;
      }
      if |t.failed| > 0 && |t.chosen| > 0 {
        return Partial(t.outputs, t.chosen, t.failed, |t.chosen|, |vs|), e.err;
      }
      if |t.chosen| == 0 {
        return AllFailed, e.err;
      }
      return Encoded(t.outputs, t.chosen), e.err;
    }

    /** One turn of the loop of encodeWithResume. */
    method EncodeOne(i: nat, vs: seq<Variant>, ghost t: Tally) returns (r: Turn)
      requires vs == P.Variants(c) && i < |vs| && At(P.AtVariant(i, t))
      modifies this, state, jobDir
      ensures state == old(state) && past.before == old(past.before)
      ensures At(P.AtVariant(i + 1, After(t, vs[i], r)))
    {
      var e, s := Take(P.AtVariant(i, t));
      var completed := state.IsQualityCompleted(vs[i].name);
      if completed {
        var existing := jobDir.LoadExistingQuality(vs[i]);
        past := past.(outcomes := past.outcomes + [NoDirectory]);
        return if existing.Some? then There(existing.value) else Missing;
      }
      var _ := SaveState(e);
      r := EncodeAndRecord(i, vs, t);
    }

    method EncodeAndRecord(i: nat, vs: seq<Variant>, ghost t: Tally) returns (r: Turn)
      requires vs == P.Variants(c) && i < |vs| && At(P.AtEncode(i, t))
      modifies this, state, jobDir
      ensures state == old(state) && past.before == old(past.before)
      ensures At(P.AtVariant(i + 1, After(t, vs[i], r)))
    {
      var q := EncodeNow(i, vs, t);
      RecordOutcome(i, vs, q, t);
      return if q.success then There(q.output) else Failed;
    }

    method RecordOutcome(i: nat, vs: seq<Variant>, q: QualityResult, ghost t: Tally)
      requires vs == P.Variants(c) && i < |vs| && At(P.AtRecord(i, t, q.success))
      requires q.success ==> q.output == OutputOf(c.site.hls, vs[i].name, Chunks(jobDir.dir, vs[i].name))
      modifies this, state
      ensures state == old(state) && past.before == old(past.before)
      ensures At(P.AtVariant(i + 1, After(t, vs[i], if q.success then There(q.output) else Failed)))
    {
      var e, s := Take(P.AtRecord(i, t, q.success));
      MarkQuality(vs[i].name, q.success);
      var _ := SaveState(e);
      assert View(P.AtVariant(i + 1, After(t, vs[i], if q.success then There(q.output) else Failed)))
          == P.RecordStep(c, s, i, t, q.success, e);
    }

    method MarkQuality(name: string, success: bool)
      modifies state
      ensures state.View() == if success then MarkComplete(old(state.View()), name)
                              else MarkFailed(old(state.View()), name)
    {
      if success {
        state.MarkQualityCompleted(name);
      } else {
        state.MarkQualityFailed(name);
      }
    }

    method EncodeNow(i: nat, vs: seq<Variant>, ghost t: Tally) returns (q: QualityResult)
      requires vs == P.Variants(c) && i < |vs| && At(P.AtEncode(i, t))
      modifies this, jobDir
      ensures state == old(state) && past.before == old(past.before)
      ensures At(P.AtRecord(i, t, q.success))
      ensures q.success ==> q.output == OutputOf(c.site.hls, vs[i].name, Chunks(jobDir.dir, vs[i].name))
    {
      var e, s := Take(P.AtEncode(i, t));
      q := jobDir.EncodeQuality(vs[i], e.outcome);
      past := P.LogEncode(past, vs[i].name, q.success, e.outcome);
    }

    /** encodeSeparateAV, as far as the checkpoint is concerned. */
    method EncodeSeparateAV() returns (err: Option<string>)
      requires At(P.AtSeparate)
      modifies this, state
      ensures state == old(state) && past.before == old(past.before)
      ensures At(if err.None? then P.AtFinal(Encoded([], [])) else P.Ending(R.Broken(err.value, past.hash)))
    {
      var e, s := Take(P.AtSeparate);
      if !e.ok {
        return Some(e.err);
      }
      var qualities := SelectQualities(c.width, c.height);
      MarkManaged(qualities, e.works);
      past := P.LogTracks(past, qualities, e.works);
      var _ := MarkAndSave(MasterPlaylist, e);
      return None;
    }

    method MarkManaged(qualities: seq<QualitySpec>, works: string -> bool)
      modifies state
      ensures state.View() == P.MarkTracks(old(state.View()), qualities, works)
    {
      for i := 0 to |qualities|
        invariant state.View() == P.MarkTracks(old(state.View()), qualities[..i], works)
      {
        assert qualities[..i + 1][..i] == qualities[..i];
        if works(qualities[i].name) {
          state.MarkQualityCompleted(qualities[i].name);
        }
      }
      assert qualities[..|qualities|] == qualities;
    }

    method MarkFailures(failed: seq<string>)
      modifies state
      ensures var s := old(state.View()); state.View() == s.(failed := s.failed + failed)
    {
      ghost var s := state.View();
      for i := 0 to |failed|
        invariant state.View() == s.(failed := s.failed + failed[..i])
      {
        state.MarkQualityFailed(failed[i]);
      }
      assert failed[..|failed|] == failed;
    }

    /** What stepEncoding does about a partial success. */
    method RecordPartial(v: Verdict)
      requires v.Partial? && At(P.AtPartial(v))
      modifies this, state
      ensures state == old(state) && past.before == old(past.before)
      ensures At(P.AtMaster(v))
    {
      var e, s := Take(P.AtPartial(v));
      MarkFailures(v.failed);
      var _ := SaveState(e);
    }

    method MarkMaster(v: Verdict) returns (err: Option<string>)
      requires At(P.AtMaster(v))
      modifies this, state
      ensures state == old(state) && past.before == old(past.before)
      ensures err.None? <==> !v.Partial?
      ensures At(if err.None? then P.AtFinal(v) else P.Ending(R.Broken(err.value, past.hash)))
    {
      var e, s := Take(P.AtMaster(v));
      var _ := MarkAndSave(MasterPlaylist, e);
      err := if v.Partial? then Some(e.err) else None;
    }

    method StepEncoding() returns (err: Option<string>, ghost v: Verdict)
      requires At(if c.hasAudio then P.AtSeparate else P.AtVariant(0, NoTally))
      modifies this, state, jobDir
      ensures state == old(state) && past.before == old(past.before)
      ensures At(if err.None? then P.AtFinal(v) else P.Ending(R.Broken(err.value, past.hash)))
    {
      if c.hasAudio {
        err := EncodeSeparateAV();
        return err, Encoded([], []);
      }
      var result, text := EncodeWithResume();
      if result.AllFailed? || result.NoPlaylist? {
        return Some(text), result;
      }
      if result.Partial? {
        RecordPartial(result);
      }
      err := MarkMaster(result);
      v := result;
    }

    method StepFinalization(ghost v: Verdict) returns (partial: bool)
      requires At(P.AtFinal(v))
      modifies this, state, service.jobs[id]
      ensures state == old(state) && past.before == old(past.before)
      ensures At(P.Ending(R.Finished(past.hash, partial)))
    {
      partial := Describe(v);
      SetFinalStatus(partial);
    }

    /** stepFinalization up to the cleaning. */
    method Describe(ghost v: Verdict) returns (partial: bool)
      requires At(P.AtFinal(v))
      modifies this, state, service.jobs[id]
      ensures state == old(state) && past.before == old(past.before)
      ensures At(P.AtFinish(partial))
    {
      var e, s := Take(P.AtFinal(v));
      partial := |state.qualitiesFailed| > 0;
      DescribeJob(partial);
      MarkUnlessDone(Cleanup, e);
      assert View(P.AtFinish(partial)) == P.FinalStep(s, e);
    }

    method DescribeJob(partial: bool)
      requires Ready()
      modifies service.jobs[id]
      ensures Ready()
      ensures var d := old(service.jobs[id].Record()).(described := true);
              service.jobs[id].Record()
              == if partial then J.WithError(d, J.JobError(J.PartialEncoding, "encoding")) else d
    {
      var _ := service.SetMetadata(id);
      if partial {
        var _ := service.SetError(id, J.JobError(J.PartialEncoding, "encoding"));
      }
    }

    /** The rest of it. */
    method SetFinalStatus(partial: bool)
      requires At(P.AtFinish(partial))
      modifies this, state, service.jobs[id]
      ensures state == old(state) && past.before == old(past.before)
      ensures At(P.Ending(R.Finished(past.hash, partial)))
    {
      if partial {
        EndAs(true, J.PartialSuccess, PartlyCompleted);
      } else {
        EndAs(false, J.Completed, Completed);
      }
    }

    method EndAs(ghost partial: bool, jobStatus: J.JobStatus, status: Status)
      requires At(P.AtFinish(partial))
      requires if partial then jobStatus == J.PartialSuccess && status == PartlyCompleted
               else jobStatus == J.Completed && status == Completed
      modifies this, state, service.jobs[id]
      ensures state == old(state) && past.before == old(past.before)
      ensures At(P.Ending(R.Finished(past.hash, partial)))
    {
      var e, s := Take(P.AtFinish(partial));
      assert P.Run(c, trace) == P.FinishStep(s, partial, e);
      FinishAs(jobStatus, status, e);
    }

    method StoreInCache()
      requires Ready()
      modifies this`stored
      ensures var hash := service.jobs[id].Record().hash;
              stored == if hash != "" then old(stored) + {hash} else old(stored)
    {
      if service.jobs[id].hash != "" {
        stored := stored + {service.jobs[id].hash};
      }
    }

    method FinishAs(jobStatus: J.JobStatus, status: Status, e: P.Env)
      requires Ready()
      modifies this`disk, this`saves, this`past, this`stored, state, service.jobs[id]
      ensures Ready() && service.jobs[id].Record() == J.WithStatus(old(service.jobs[id].Record()), jobStatus)
      ensures state.View() == MarkStep(old(state.View()).(status := status), Finalization)
      ensures disk == if e.saved then Some(state.View()) else old(disk)
      ensures saves == P.NoteSave(old(saves), state.View(), e.saved) && past == old(past).(succeeded := true)
      ensures var hash := old(service.jobs[id].Record()).hash;
              stored == if hash != "" then old(stored) + {hash} else old(stored)
    {
      StoreInCache();
      SetStatus(jobStatus);
      Conclude(status, Finalization, e);
    }

    /** A step that the checkpoint says is done. */
    method Pass(ghost pc: P.Pc)
      requires pc.AtHash? || pc.AtDedup?
      requires At(pc) && (if pc.AtHash? then HashComputation else Deduplication) in state.stepsCompleted
      modifies this`disk, this`saves, this`heart, this`trace, this`clock
      ensures At(if pc.AtHash? then P.AtDedup else P.AtAnalysis)
    {
      var e, s := Take(pc);
    }

    method HashAndDeduplicate() returns (duplicate: bool, err: Option<string>)
      requires At(P.AtHash)
      modifies this, state, service.jobs[id]
      ensures state == old(state) && past.before == old(past.before)
      ensures At(if err.Some? then P.Ending(R.Broken(err.value, past.hash))
                 else if duplicate then P.Ending(R.Duplicate(past.hash)) else P.AtAnalysis)
    {
      duplicate := false;
      var done := state.IsStepCompleted(HashComputation);
      if done {
        Pass(P.AtHash);
      } else {
        err := StepHashComputation();
        if err.Some? {
          return;
        }
      }
      done := state.IsStepCompleted(Deduplication);
      if done {
        Pass(P.AtDedup);
        err := None;
      } else {
        duplicate, err := StepDeduplication();
      }
    }

    method ExecuteSteps() returns (err: Option<string>, ghost a: R.Attempt)
      requires At(P.AtHash)
      modifies this, state, jobDir, service.jobs[id]
      ensures state == old(state) && past.before == old(past.before)
      ensures At(P.Ending(a)) && err == R.ErrorOf(a)
    {
      var duplicate;
      duplicate, err := HashAndDeduplicate();
      if err.Some? {
        return err, R.Broken(err.value, past.hash);
      }
      if duplicate {
        return None, R.Duplicate(past.hash);
      }
      err := StepAnalysis();
      if err.Some? {
        return err, R.Broken(err.value, past.hash);
      }
      ghost var v;
      err, v := StepEncoding();
      if err.Some? {
        return err, R.Broken(err.value, past.hash);
      }
      var partial := StepFinalization(v);
      return None, R.Finished(past.hash, partial);
    }

    /** getOrCreateState. */
    method GetOrCreateState(loads: bool, saves: bool, now: int) returns (ok: bool)
      modifies this`state, this`disk
      ensures ok <==> (loads && old(disk).Some?) || saves
      ensures !ok ==> state == old(state) && disk == old(disk)
      ensures ok ==> fresh(state)
      ensures ok ==> if loads && old(disk).Some? then disk == old(disk) && state.View() == disk.value
                     else state.View() == Fresh(now) && disk == Some(Fresh(now))
    {
      if loads && disk.Some? {
        state := new JobState(disk.value);
        return true;
      }
      if !saves {
        return false;
      }
      state := new JobState(Fresh(now));
      disk := Some(Fresh(now));
      return true;
    }

    /** Up to the call of executeSteps. */
    method Begin(loads: bool, saves: bool, now: int, text: string) returns (ok: bool)
      requires At(P.Idle)
      modifies this, service.jobs[id]
      ensures At(if ok then P.AtHash else P.Idle)
      ensures past.before == old(service.jobs[id].Record())
      ensures !ok ==> state == old(state) && last == Some(R.NoState(text))
      ensures ok ==> fresh(state)
    {
      ghost var s, ev := View(P.Idle), P.Attempt(loads, saves, now, text);
      P.RunExtends(c, trace, ev);
      trace := trace + [ev];
      past := past.(before := service.jobs[id].Record(), hash := "");
      ok := GetOrCreateState(loads, saves, now);
      if !ok {
        last := Some(R.NoState(text));
        return;
      }
      Start();
    }

    /** The heartbeat starts and the job is running. */
    method Start()
      requires Ready()
      modifies this`heart, this`last, this`past, this`saves, service.jobs[id]
      ensures Ready() && View(P.AtHash) == P.Started(old(View(P.Idle)))
    {
      heart, last := P.Waiting, None;
      past := past.(stale := past.stale || state.qualitiesComplete != past.log);
      saves := P.Saves(state.View(), false, false, false);
      SetStatus(J.Running);
    }

    /** A heartbeat update that is under way is carried out. */
    method FinishUpdate(ghost pc: P.Pc) returns (e: P.Env)
      requires At(pc)
      modifies this`disk, this`saves, this`heart, this`trace, this`clock
      ensures At(pc) && !heart.Loaded?
    {
      e := Ask(pc);
      if heart.Loaded? {
        Beat(Store(heart.state.heartbeat, e.saved), pc);
      }
    }

    /** The deferred stop of the heartbeat: it is taken when an update under way is done. */
    method StopHeartbeat(ghost a: R.Attempt)
      requires At(P.Ending(a))
      modifies this`disk, this`saves, this`heart, this`trace, this`clock, this`last
      ensures At(P.Idle) && last == Some(a)
    {
      var e := FinishUpdate(P.Ending(a));
      HeartRuns(c, trace);
      P.RunExtends(c, trace, P.Work(e));
      trace := trace + [P.Work(e)];
      heart, last := P.Off, Some(a);
    }

    /** Main result: one call of `process` does to the job's record exactly what the
        retry loop is told of it (module Retrying), and if it goes through finalization
        without audio, the checkpoint and the playlist hold every selected variant. It
        ends in a state that the machine reaches. */
    method Process(loads: bool, saves: bool, now: int, text: string) returns (err: Option<string>, ghost a: R.Attempt)
      requires At(P.Idle)
      modifies this, state, jobDir, service.jobs[id]
      ensures At(P.Idle) && err == R.ErrorOf(a) && last == Some(a)
      ensures service.jobs[id].Record() == R.AfterAttempt(old(service.jobs[id].Record()), a)
      ensures a.Finished? && !c.hasAudio ==> playlist == Selected(c.height) && P.AllComplete(c, state.View())
      ensures state == old(state) || fresh(state)
    {
      var ok := Begin(loads, saves, now, text);
      if !ok {
        P.AttemptSummary(c, trace);
        return Some(text), R.NoState(text);
      }
      err, a := ExecuteSteps();
      if a.Finished? && !c.hasAudio {
        P.FinalizedIsComplete(c, trace);
      }
      StopHeartbeat(a);
      P.AttemptSummary(c, trace);
    }

    method CountRetry()
      requires At(P.Idle)
      modifies this`trace, this`last, service.jobs[id]
      ensures At(P.Idle)
      ensures var r := old(service.jobs[id].Record()); service.jobs[id].Record() == r.(retries := r.retries + 1)
    {
      P.RunExtends(c, trace, P.CountRetry);
      trace, last := trace + [P.CountRetry], None;
      var _ := service.IncrementRetry(id);
    }

    method HandleError(code: J.ErrorCode, stage: string)
      requires At(P.Idle)
      modifies this`trace, this`last, service.jobs[id]
      ensures At(P.Idle)
      ensures service.jobs[id].Record() == J.WithError(old(service.jobs[id].Record()), J.JobError(code, stage))
    {
      ghost var s, ev := View(P.Idle), P.GiveUp(J.JobError(code, stage));
      P.RunExtends(c, trace, ev);
      trace, last := trace + [ev], None;
      var _ := service.SetError(id, J.JobError(code, stage));
      assert View(P.Idle) == s.(job := J.WithError(s.job, J.JobError(code, stage)), last := None);
    }
  }

  /** How an attempt finds its checkpoint. */
  datatype Opening = Opening(loads: bool, saves: bool, now: int, err: string)

  class TranscodeUseCase {
    const worker: Worker
    const maxRetries: int
    const classify: string -> J.ErrorCode
    var deadLetters: seq<string>

    constructor (worker: Worker, maxRetries: int)
      ensures this.worker == worker && this.maxRetries == maxRetries && deadLetters == []
      ensures classify == R.ExtractErrorCode
    {
      this.worker, this.maxRetries, this.deadLetters := worker, maxRetries, [];
      this.classify := R.ExtractErrorCode;
    }

    ghost function Record(): J.JobRecord
      requires worker.Ready()
      reads worker, worker.service, worker.service.jobs.Values
    {
      worker.service.jobs[worker.id].Record()
    }

    /** The top of the loop from the second attempt on: the delay, or the end. */
    method PrepareRetry(attempt: nat, code: J.ErrorCode) returns (delay: Option<nat>)
      requires attempt > 0 && worker.At(P.Idle)
      modifies worker`trace, worker`last, worker.service.jobs[worker.id]
      ensures worker.At(P.Idle)
      ensures delay == R.NextDelay(code, attempt)
      ensures Record() == if delay.Some? then old(Record()).(retries := old(Record()).retries + 1)
                          else J.WithError(old(Record()), J.JobError(code, R.StageOf(code)))
    {
      var strategy := R.GetRetryStrategy(code);
      if !strategy.shouldRetry {
        worker.HandleError(code, "validation");
        return None;
      }
      if attempt > |strategy.backoff| {
        worker.HandleError(code, "retry");
        return None;
      }
      worker.CountRetry();
      return Some(strategy.backoff[attempt - 1]);
    }

    /** One turn of the loop: no delay means that it gave up. */
    method Attempt(attempt: nat, code: J.ErrorCode, o: Opening)
      returns (delay: Option<nat>, err: Option<string>, ghost a: R.Attempt)
      requires worker.At(P.Idle)
      modifies worker, worker.state, worker.jobDir, worker.service.jobs[worker.id]
      ensures worker.At(P.Idle) && (worker.state == old(worker.state) || fresh(worker.state))
      ensures attempt == 0 ==> delay == Some(0) && Record() == R.AfterAttempt(old(Record()), a)
      ensures attempt > 0 ==> delay == R.NextDelay(code, attempt)
      ensures attempt > 0 && delay.None? ==> Record() == J.WithError(old(Record()), J.JobError(code, R.StageOf(code)))
      ensures attempt > 0 && delay.Some? ==>
                Record() == R.AfterAttempt(old(Record()).(retries := old(Record()).retries + 1), a)
      ensures delay.Some? ==> err == R.ErrorOf(a)
    {
      delay, err, a := Some(0), None, R.Untried;
      if attempt > 0 {
        delay := PrepareRetry(attempt, code);
        if delay.None? {
          return;
        }
      }
      err, a := worker.Process(o.loads, o.saves, o.now, o.err);
    }

    /** The loop has made these attempts, and goes on. */
    ghost predicate Reached(made: R.Trail, job: J.JobRecord, lastError: Option<string>, slept: nat)
      reads this, worker, worker.state, worker.jobDir, worker.service, worker.service.jobs.Values
    {
      && worker.At(P.Idle)
      && (lastError.Some? <==> made.After?)
      && R.AllMade(classify, maxRetries, made, job)
      && R.Progress(classify, made, job) == R.Execution(lastError, R.Count(made), slept, false, Record())
    }

    /** The loop has ended, having made these attempts. */
    ghost predicate Ended(made: R.Trail, job: J.JobRecord, lastError: Option<string>, slept: nat, dead: bool)
      reads this, worker, worker.state, worker.jobDir, worker.service, worker.service.jobs.Values
    {
      && worker.At(P.Idle)
      && R.Executed(classify, maxRetries, R.Beginning(made), job)
         == R.Execution(lastError, R.Count(made), slept, dead, Record())
    }

    function CodeOf(lastError: Option<string>): J.ErrorCode
    {
      if lastError.Some? then classify(lastError.value) else J.NoCode
    }

    method Turn(o: Opening, lastError: Option<string>, attempt: nat, code: J.ErrorCode, slept: nat,
                ghost made: R.Trail, ghost job: J.JobRecord)
      returns (delay: Option<nat>, err: Option<string>, ghost a: R.Attempt)
      requires Reached(made, job, lastError, slept) && attempt == R.Count(made) <= maxRetries
      requires code == CodeOf(lastError)
      modifies worker, worker.state, worker.jobDir, worker.service.jobs[worker.id]
      ensures worker.state == old(worker.state) || fresh(worker.state)
      ensures delay.None? ==> Ended(made, job, lastError, slept, false)
      ensures delay.Some? && err.Some? ==> Reached(R.After(made, a), job, err, slept + delay.value)
      ensures delay.Some? && err.None? ==> Ended(R.After(made, a), job, err, slept + delay.value, false)
    {
      ghost var e := R.Execution(lastError, R.Count(made), slept, false, Record());
      delay, err, a := Attempt(attempt, code, o);
      ghost var record := Record();
      if delay.None? {
        R.TurnRefused(classify, maxRetries, made, job, e, record, code);
        return;
      }
      R.TurnMade(classify, maxRetries, made, a, job, e, record, delay.value);
      if err.None? {
        R.LoopSucceeds(classify, maxRetries, R.After(made, a), job);
      }
    }

    /** The loop of Execute, proved against its description over the attempts made. */
    method AttemptLoop(openings: nat -> Opening)
      returns (lastError: Option<string>, attempts: nat, slept: nat, ghost made: R.Trail, deadLettered: bool)
      requires worker.At(P.Idle)
      modifies worker, worker.state, worker.jobDir, worker.service.jobs[worker.id]
      ensures attempts == R.Count(made) && Ended(made, old(Record()), lastError, slept, deadLettered)
    {
      lastError, attempts, slept, made, deadLettered := None, 0, 0, R.Nothing, false;
      var errorCode := J.NoCode;
      ghost var job := Record();
      while attempts <= maxRetries
        invariant worker.state == old(worker.state) || fresh(worker.state)
        invariant attempts == R.Count(made) && errorCode == CodeOf(lastError)
        invariant Reached(made, job, lastError, slept)
        decreases maxRetries - attempts
      {
        var delay, err;
        ghost var a;
        delay, err, a := Turn(openings(attempts), lastError, attempts, errorCode, slept, made, job);
        if delay.None? {
          return;
        }
        lastError, attempts, slept, made := err, attempts + 1, slept + delay.value, R.After(made, a);
        if err.None? {
          return;
        }
        errorCode := classify(err.value);
      }
      ghost var e := R.Progress(classify, made, job);
      worker.HandleError(errorCode, "retry");
      R.TurnsUsedUp(classify, maxRetries, made, job, e, Record(), errorCode);
      deadLettered := true;
    }

    /** Every attempt made failed, with one of these codes. */
    ghost predicate AllFailed(made: R.Trail, codes: set<J.ErrorCode>)
    {
      R.FailWith(classify, R.Beginning(made), 0, R.Count(made), codes)
    }

    lemma ExactAccounting(made: R.Trail, job: J.JobRecord, attempts: nat)
      requires maxRetries >= 0 && attempts == R.Count(made)
      requires R.Executed(classify, maxRetries, R.Beginning(made), job).attempts == attempts
      ensures var slept := R.Executed(classify, maxRetries, R.Beginning(made), job).slept;
              && (AllFailed(made, R.ENCODING_ERRORS) ==>
                    attempts == 1 + R.Least(maxRetries, 3) && slept == [0, 2, 7, 17][R.Least(maxRetries, 3)])
              && (AllFailed(made, {J.IOError}) ==>
                    attempts == 1 + R.Least(maxRetries, 3) && slept == [0, 3, 9, 24][R.Least(maxRetries, 3)])
              && (AllFailed(made, R.FINAL_ERRORS) ==> attempts == 1 && slept == 0)
              && (AllFailed(made, {J.PermissionDenied, J.PartialEncoding, J.NoCode}) ==>
                    attempts == 1 + R.Least(maxRetries, 2) && slept == [0, 2, 7][R.Least(maxRetries, 2)])
    {
      var runs := R.Beginning(made);
      if AllFailed(made, R.ENCODING_ERRORS) {
        R.EncodingFailures(classify, maxRetries, runs, job);
      }
      if AllFailed(made, {J.IOError}) {
        R.IOFailures(classify, maxRetries, runs, job);
      }
      if AllFailed(made, R.FINAL_ERRORS) {
        R.FinalFailures(classify, maxRetries, runs, job);
      }
      if AllFailed(made, {J.PermissionDenied, J.PartialEncoding, J.NoCode}) {
        R.OtherFailures(classify, maxRetries, runs, job);
      }
    }

    /** Main result, end to end: whatever files, ffmpeg, heartbeats and checkpoints do,
        with a sensible number of retries Execute returns nil exactly when the stored
        status says success, and dead-letters the job exactly when the last of
        maxRetries + 1 attempts failed. */
    method Execute(openings: nat -> Opening)
      returns (err: Option<string>, attempts: nat, slept: nat, ghost made: R.Trail)
      requires worker.At(P.Idle)
      modifies this, worker, worker.state, worker.jobDir, worker.service.jobs[worker.id]
      ensures worker.At(P.Idle)
      ensures maxRetries < 0 ==>
        && err.None? && Record().status == J.FailedJob && Record().completed && attempts == 0 && slept == 0
        && Record().retries == old(Record()).retries && deadLetters == old(deadLetters) + [worker.id]
      ensures maxRetries >= 0 ==>
        && (err.None? <==> Record().status == J.Completed || Record().status == J.PartialSuccess)
        && (err.Some? <==> Record().status == J.FailedJob)
        && Record().completed
        && 1 <= attempts <= 1 + (if maxRetries < 3 then maxRetries else 3) && slept <= 24
        && Record().retries == old(Record()).retries + attempts - 1
        && deadLetters == (if err.Some? && attempts == maxRetries + 1 then old(deadLetters) + [worker.id]
                           else old(deadLetters))
      ensures attempts == R.Count(made)
      ensures maxRetries >= 0 && AllFailed(made, R.ENCODING_ERRORS) ==>
                attempts == 1 + R.Least(maxRetries, 3) && slept == [0, 2, 7, 17][R.Least(maxRetries, 3)]
      ensures maxRetries >= 0 && AllFailed(made, {J.IOError}) ==>
                attempts == 1 + R.Least(maxRetries, 3) && slept == [0, 3, 9, 24][R.Least(maxRetries, 3)]
      ensures maxRetries >= 0 && AllFailed(made, R.FINAL_ERRORS) ==> attempts == 1 && slept == 0
      ensures maxRetries >= 0 && AllFailed(made, {J.PermissionDenied, J.PartialEncoding, J.NoCode}) ==>
                attempts == 1 + R.Least(maxRetries, 2) && slept == [0, 2, 7][R.Least(maxRetries, 2)]
    {
      ghost var job := Record();
      var dead;
      err, attempts, slept, made, dead := AttemptLoop(openings);
      if dead {
        deadLetters := deadLetters + [worker.id];
      }
      if maxRetries >= 0 {
        R.OutcomeAgreement(classify, maxRetries);
        R.RetryAccounting(classify, maxRetries, R.Beginning(made), job);
        assert R.Agrees(R.Executed(classify, maxRetries, R.Beginning(made), job));
        ExactAccounting(made, job, attempts);
      }
    }
  }
}
