/** The resumable pipeline of one job as a state machine
    (internal/application/usecases/transcode_usecase.go): attempts of `process` with their
    step functions, the heartbeat goroutine that loads and saves the same checkpoint, and
    crashes. Each step of the main goroutine ends with the save that the program makes
    there. State files are replaced atomically (module StateStore), the job's directory
    is never deleted and the size limit is never reached. */
module Pipelines {
  import opened Options
  import opened JobStates
  import opened Ladders
  import opened Encoding
  import J = Jobs
  import R = Retrying

  /** A computed hash is never empty. */
  type Hash = h: string | h != "" witness "0"

  /** What stays fixed over the life of a job; `hash` is that of its input file. */
  datatype Config = Config(site: Site, hash: Hash, hasAudio: bool, width: int, height: int)

  function Variants(c: Config): seq<Variant> { Selected(c.height) }

  /** Where the main goroutine is. */
  datatype Pc =
    | Idle                                              // between attempts
    | AtHash | AtDedup | AtAnalysis
    | AtSeparate                                        // encodeSeparateAV
    | AtVariant(i: nat, tally: Tally)                   // top of the loop over the variants
    | AtEncode(i: nat, tally: Tally)                    // before EncodeQuality
    | AtRecord(i: nat, tally: Tally, success: bool)     // after it
    | AtPartial(verdict: Verdict)                       // stepEncoding marks the failures again
    | AtMaster(verdict: Verdict)                        // before master_playlist is marked
    | AtFinal(verdict: Verdict)                         // stepFinalization
    | AtFinish(failures: bool)                          // before the final status
    | Ending(attempt: R.Attempt)                        // process returns; the deferred stops

  /** The heartbeat goroutine. */
  datatype Heart = Off | Waiting | Loaded(state: Snapshot)

  datatype State = State(
    disk: Option<Snapshot>,      // state.json
    dir: Dir,
    playlist: seq<Variant>,      // the variants listed in master.m3u8
    mem: Snapshot,               // the main goroutine's state, while an attempt runs
    pc: Pc,
    heart: Heart,
    job: J.JobRecord,
    stored: set<string>,         // the hashes under which the job is in the deduplication cache
    last: Option<R.Attempt>,     // how the latest attempt ended
    past: History,
    saves: Saves)

  /** What happened so far, for the statements only. */
  datatype History = History(
    before: J.JobRecord,         // the record when the attempt began
    hash: string,                // stored by this attempt
    encoded: set<string>,        // qualities ever encoded
    intact: set<string>,         // those whose latest encoding succeeded
    lost: set<string>,           // qualities of which some encoding failed
    log: seq<string>,            // successes of EncodeQuality, in order
    stale: bool,                 // some attempt began from a checkpoint that lacked a success
    succeeded: bool,             // some attempt reached a success status
    crashed: bool,
    entry: Scene,                // on entering the loop over the variants
    outcomes: seq<Outcome>,      // of its iterations so far
    calls: seq<string>)          // its calls of EncodeQuality so far

  /** What became of the saves of the current attempt, for the statements only. */
  datatype Saves = Saves(
    latest: Snapshot,            // what the attempt loaded or last saved
    missed: bool,                // its latest save failed
    overtaken: bool,             // a save changed the listings since the heartbeat's load
    lagging: bool)               // and the heartbeat then wrote the older listings back

  const NewJob := J.JobRecord(J.Queued, "", false, 0, None, false)

  const NoHistory := History(NewJob, "", {}, {}, {}, [], false, false, false,
                             Scene(Fresh(0), map[], NoTally, []), [], [])

  const Init := State(None, map[], [], Fresh(0), Idle, Off, NewJob, {}, None, NoHistory,
                      Saves(Fresh(0), false, false, false))

  /** The answers of the environment to one step; `cache` is the deduplication cache at
      that moment, `err` the text of the step's error, if any. */
  datatype Env = Env(ok: bool, saved: bool, cache: map<string, string>, outcome: Outcome,
                     works: string -> bool, err: string)

  datatype Event =
    | Attempt(loads: bool, saves: bool, now: int, err: string)
    | Work(e: Env)
    | HeartLoad
    | HeartSave(now: int, saves: bool)
    | Crash  // the process dies; the job is later registered anew under the same ID
    | CountRetry                     // the retry loop, between two attempts
    | GiveUp(error: J.JobError)      // the retry loop, after the last one

  function Save(s: State, saved: bool): State
  {
    s.(disk := if saved then Some(s.mem) else s.disk, saves := NoteSave(s.saves, s.mem, saved))
  }

  function NoteSave(h: Saves, m: Snapshot, saved: bool): Saves
  {
    if saved then Saves(m, false, h.overtaken || !SameListings(m, h.latest), false) else h.(missed := true)
  }

  function Goto(s: State, pc: Pc): State { s.(pc := pc) }

  function FailAttempt(s: State, err: string): State { Goto(s, Ending(R.Broken(err, s.past.hash))) }

  function Mark(s: State, step: Step): State { s.(mem := MarkStep(s.mem, step)) }

  // ------------------------------------------------------------ the main goroutine

  function BeginAttempt(s: State, loads: bool, saves: bool, now: int, err: string): State
  {
    var t := s.(past := s.past.(before := s.job, hash := ""));
    if loads && s.disk.Some? then Started(t.(mem := s.disk.value))
    else if saves then Started(Save(t.(mem := Fresh(now)), true))
    else t.(last := Some(R.NoState(err)))
  }

  function Started(s: State): State
  {
    s.(pc := AtHash, heart := Waiting, last := None, job := J.WithStatus(s.job, J.Running),
       past := s.past.(stale := s.past.stale || s.mem.complete != s.past.log),
       saves := Saves(s.mem, false, false, false))
  }

  function HashStep(c: Config, s: State, e: Env): State
  {
    if HashComputation in s.mem.steps then Goto(s, AtDedup)
    else if !e.ok then FailAttempt(s, e.err)
    else
      var hashed := s.(job := s.job.(hash := c.hash), past := s.past.(hash := c.hash));
      var t := Save(Mark(hashed, HashComputation), e.saved);
      if e.saved then Goto(t, AtDedup) else FailAttempt(t, e.err)
  }

  function DedupStep(s: State, e: Env): State
  {
    if Deduplication in s.mem.steps then Goto(s, AtAnalysis)
    else if s.job.hash == "" then FailAttempt(s, e.err)  // hash not computed
    else if s.job.hash in e.cache then
      var t := s.(job := J.WithStatus(s.job, J.Completed), mem := s.mem.(status := Completed),
                  past := s.past.(succeeded := true));
      Goto(Save(Mark(t, Deduplication), e.saved), Ending(R.Duplicate(s.past.hash)))
    else
      var t := Save(Mark(s, Deduplication), e.saved);
      if e.saved then Goto(t, AtAnalysis) else FailAttempt(t, e.err)
  }

  function EnterLoop(h: History, m: Snapshot, dir: Dir): History
  {
    h.(entry := Scene(m, dir, NoTally, []), outcomes := [], calls := [])
  }

  function AnalysisStep(c: Config, s: State, e: Env): State
  {
    if !e.ok then FailAttempt(s, e.err)
    else
      var t := if Analysis in s.mem.steps then s else Save(Mark(s, Analysis), e.saved);
      if c.hasAudio then Goto(t, AtSeparate)
      else Goto(t.(past := EnterLoop(t.past, t.mem, t.dir)), AtVariant(0, NoTally))
  }

  /** The qualities that the separate encoder managed, marked one by one. */
  function MarkTracks(m: Snapshot, qs: seq<QualitySpec>, works: string -> bool): Snapshot
  {
    if qs == [] then m
    else
      var n := MarkTracks(m, qs[..|qs| - 1], works);
      if works(qs[|qs| - 1].name) then MarkComplete(n, qs[|qs| - 1].name) else n
  }

  function Managed(qs: seq<QualitySpec>, works: string -> bool): set<string>
  {
    set i | 0 <= i < |qs| && works(qs[i].name) :: qs[i].name
  }

  /** The separate encoder encodes every selected quality anew, completed or not. */
  function LogTracks(h: History, qs: seq<QualitySpec>, works: string -> bool): History
  {
    h.(encoded := h.encoded + Managed(qs, works),
       intact := h.intact - Managed(qs, _ => true) + Managed(qs, works))
  }

  function SeparateStep(c: Config, s: State, e: Env): State
  {
    if !e.ok then FailAttempt(s, e.err)
    else
      var qs := FittingBoth(AV_TABLE, c.width, c.height);
      var t := s.(mem := MarkTracks(s.mem, qs, e.works), past := LogTracks(s.past, qs, e.works));
      Goto(Save(Mark(t, MasterPlaylist), e.saved), AtFinal(Encoded([], [])))
  }

  function VariantStep(c: Config, s: State, i: nat, t: Tally, e: Env): State
  {
    var vs := Variants(c);
    if i >= |vs| then LoopExit(c, s, t, e)
    else if vs[i].name in s.mem.complete then
      var skipped := s.(past := s.past.(outcomes := s.past.outcomes + [NoDirectory]));
      Goto(skipped, AtVariant(i + 1, Skip(c.site.hls, s.dir, t, vs[i])))
    else Goto(Save(s, e.saved), AtEncode(i, t))
  }

  function LoopExit(c: Config, s: State, t: Tally, e: Env): State
  {
    var v := ResumeVerdict(t, |Variants(c)|, e.ok);
    match v
    case Encoded(_, _) => s.(playlist := t.chosen, pc := AtMaster(v))
    case Partial(_, _, _, _, _) => s.(playlist := t.chosen, pc := AtPartial(v))
    case AllFailed => FailAttempt(s, e.err)
    case NoPlaylist => FailAttempt(s, e.err)
  }

  function LogEncode(h: History, name: string, success: bool, o: Outcome): History
  {
    var logged := if success then h.(encoded := h.encoded + {name}, intact := h.intact + {name}, log := h.log + [name])
                  else h.(intact := h.intact - {name}, lost := h.lost + {name});
    logged.(outcomes := h.outcomes + [o], calls := h.calls + [name])
  }

  function EncodeStep(c: Config, s: State, i: nat, t: Tally, e: Env): State
    requires i < |Variants(c)|
  {
    var name := Variants(c)[i].name;
    var success := Succeeds(c.site, s.dir, name, e.outcome);
    s.(dir := AfterEncode(c.site, s.dir, name, e.outcome), pc := AtRecord(i, t, success),
       past := LogEncode(s.past, name, success, e.outcome))
  }

  function RecordStep(c: Config, s: State, i: nat, t: Tally, success: bool, e: Env): State
    requires i < |Variants(c)|
  {
    var v := Variants(c)[i];
    var tally := if success then Keep(t, c.site.hls, v, Chunks(s.dir, v.name)) else Lose(t, v);
    Goto(Save(s.(mem := Record(s.mem, v, success)), e.saved), AtVariant(i + 1, tally))
  }

  function PartialStep(s: State, v: Verdict, e: Env): State
    requires v.Partial?
  {
    Goto(Save(s.(mem := s.mem.(failed := s.mem.failed + v.failed)), e.saved), AtMaster(v))
  }

  function MasterStep(s: State, v: Verdict, e: Env): State
  {
    var t := Save(Mark(s, MasterPlaylist), e.saved);
    if v.Partial? then FailAttempt(t, e.err) else Goto(t, AtFinal(v))
  }

  function FinalStep(s: State, e: Env): State
  {
    var failures := s.mem.failed != [];
    var described := s.job.(described := true);
    var record := if failures then J.WithError(described, J.JobError(J.PartialEncoding, "encoding")) else described;
    var t := s.(job := record);
    Goto(if Cleanup in t.mem.steps then t else Save(Mark(t, Cleanup), e.saved), AtFinish(failures))
  }

  function FinishStep(s: State, failures: bool, e: Env): State
  {
    var t := s.(job := J.WithStatus(s.job, if failures then J.PartialSuccess else J.Completed),
                mem := s.mem.(status := if failures then PartlyCompleted else Completed),
                stored := if s.job.hash != "" then s.stored + {s.job.hash} else s.stored,
                past := s.past.(succeeded := true));
    Goto(Save(Mark(t, Finalization), e.saved), Ending(R.Finished(s.past.hash, failures)))
  }

  /** The heartbeat goroutine takes the unbuffered stop message only between updates. */
  function EndStep(s: State, a: R.Attempt): State
  {
    if s.heart.Waiting? then s.(pc := Idle, heart := Off, last := Some(a)) else s
  }

  function WorkStep(c: Config, s: State, e: Env): State
  {
    match s.pc
    case Idle => s
    case AtHash => HashStep(c, s, e)
    case AtDedup => DedupStep(s, e)
    case AtAnalysis => AnalysisStep(c, s, e)
    case AtSeparate => SeparateStep(c, s, e)
    case AtVariant(i, t) => VariantStep(c, s, i, t, e)
    case AtEncode(i, t) => if i < |Variants(c)| then EncodeStep(c, s, i, t, e) else s
    case AtRecord(i, t, ok) => if i < |Variants(c)| then RecordStep(c, s, i, t, ok, e) else s
    case AtPartial(v) => if v.Partial? then PartialStep(s, v, e) else s
    case AtMaster(v) => MasterStep(s, v, e)
    case AtFinal(_) => FinalStep(s, e)
    case AtFinish(failures) => FinishStep(s, failures, e)
    case Ending(a) => EndStep(s, a)
  }

  // -------------------------------------------------------------------------- runs

  /** An event that cannot happen leaves the state alone. */
  function Next(c: Config, s: State, ev: Event): State
  {
    match ev
    case Attempt(loads, saves, now, err) => if s.pc.Idle? then BeginAttempt(s, loads, saves, now, err) else s
    case Work(e) => WorkStep(c, s, e)
    case HeartLoad =>
      if s.heart.Waiting? && s.disk.Some? then
        s.(heart := Loaded(s.disk.value), saves := s.saves.(overtaken := s.saves.lagging))
      else s
    case HeartSave(now, saves) =>
      if s.heart.Loaded? then
        s.(heart := Waiting, disk := if saves then Some(Beat(s.heart.state, now)) else s.disk,
           saves := s.saves.(lagging := if saves then s.saves.overtaken else s.saves.lagging))
      else s
    case CountRetry => if s.pc.Idle? then s.(job := s.job.(retries := s.job.retries + 1), last := None) else s
    case GiveUp(error) => if s.pc.Idle? then s.(job := J.WithError(s.job, error), last := None) else s
    case Crash => s.(pc := Idle, heart := Off, job := NewJob, last := None, past := s.past.(crashed := true))
  }

  function Run(c: Config, events: seq<Event>): State
  {
    if events == [] then Init else Next(c, Run(c, events[..|events| - 1]), events[|events| - 1])
  }

  // ------------------------------------------------- what every checkpoint satisfies

  /** A checkpoint, wherever a copy of it is. */
  ghost predicate Good(c: Config, s: State, m: Snapshot)
  {
    && m.steps <= PIPELINE
    && NoRepeats(m.complete)
    && (forall q :: q in m.complete ==> q in s.past.encoded)
    && (forall q :: q in m.failed ==> q in s.past.lost)
    && m.status != SizeExceeded
    && (s.past.succeeded || m.status == Processing)
    && (HashComputation in m.steps && !s.past.crashed ==> s.job.hash != "")
  }

  /** `older` is an earlier version of `m`. */
  ghost predicate Earlier(older: Snapshot, m: Snapshot)
  {
    older.steps <= m.steps && older.complete <= m.complete && older.failed <= m.failed
  }

  ghost predicate Active(s: State) { !s.pc.Idle? }

  /** Stale but sound: disk and heartbeat hold earlier versions of the state in memory. */
  ghost predicate Checkpoints(c: Config, s: State)
  {
    && (Active(s) <==> !s.heart.Off?)
    && (s.disk.Some? ==> Good(c, s, s.disk.value))
    && (Active(s) ==> Good(c, s, s.mem) && s.disk.Some? && Earlier(s.disk.value, s.mem))
    && (s.heart.Loaded? ==> Good(c, s, s.heart.state) && Earlier(s.heart.state, s.mem))
  }

  /** How many steps are marked, at least, at each point. */
  function Reached(pc: Pc): nat
  {
    match pc
    case AtDedup => 1
    case AtAnalysis => 2
    case AtSeparate | AtVariant(_, _) | AtEncode(_, _) | AtRecord(_, _, _) | AtPartial(_) | AtMaster(_) => 3
    case AtFinal(_) => 4
    case AtFinish(_) => 5
    case _ => 0
  }

  ghost predicate InOrder(s: State) { Active(s) ==> |s.mem.steps| >= Reached(s.pc) }

  lemma MarkInOrder(m: Snapshot, k: nat)
    requires m.steps <= PIPELINE && k < |PIPELINE| && |m.steps| >= k
    ensures MarkStep(m, PIPELINE[k]).steps <= PIPELINE
    ensures |MarkStep(m, PIPELINE[k]).steps| >= k + 1
    ensures m.steps <= MarkStep(m, PIPELINE[k]).steps
    ensures PIPELINE[k] in m.steps <==> |m.steps| > k
  {
    if |m.steps| > k {
      assert m.steps[k] == PIPELINE[k];
    }
  }

  /** A main step keeps the checkpoints sound if it only extends the state in memory. */
  ghost predicate Extends(c: Config, s: State, t: State)
  {
    && Active(t) && t.heart == s.heart
    && Earlier(s.mem, t.mem) && Good(c, t, t.mem)
    && s.past.encoded <= t.past.encoded && s.past.lost <= t.past.lost && (s.job.hash != "" ==> t.job.hash != "")
    && t.past.crashed == s.past.crashed && (s.past.succeeded ==> t.past.succeeded)
    && (t.disk == s.disk || t.disk == Some(t.mem))
  }

  lemma ExtendKeeps(c: Config, s: State, t: State)
    requires Checkpoints(c, s) && Active(s) && Extends(c, s, t)
    ensures Checkpoints(c, t)
  {}

  lemma HashExtends(c: Config, s: State, e: Env)
    requires Good(c, s, s.mem) && InOrder(s) && s.pc.AtHash?
    ensures Extends(c, s, HashStep(c, s, e)) && InOrder(HashStep(c, s, e))
  {
    MarkInOrder(s.mem, 0);
  }

  lemma DuplicateExtends(c: Config, s: State, e: Env)
    requires Good(c, s, s.mem) && InOrder(s) && s.pc.AtDedup?
    requires Deduplication !in s.mem.steps && s.job.hash != "" && s.job.hash in e.cache
    ensures Extends(c, s, DedupStep(s, e)) && InOrder(DedupStep(s, e))
  {
    MarkInOrder(s.mem, 0);
    MarkInOrder(s.mem.(status := Completed), 1);
  }

  lemma DedupExtends(c: Config, s: State, e: Env)
    requires Good(c, s, s.mem) && InOrder(s) && s.pc.AtDedup?
    ensures Extends(c, s, DedupStep(s, e)) && InOrder(DedupStep(s, e))
  {
    if Deduplication !in s.mem.steps && s.job.hash != "" && s.job.hash in e.cache {
      DuplicateExtends(c, s, e);
    } else {
      MarkInOrder(s.mem, 0);
      MarkInOrder(s.mem, 1);
    }
  }

  lemma AnalysisExtends(c: Config, s: State, e: Env)
    requires Good(c, s, s.mem) && InOrder(s) && s.pc.AtAnalysis?
    ensures Extends(c, s, AnalysisStep(c, s, e)) && InOrder(AnalysisStep(c, s, e))
  {
    MarkInOrder(s.mem, 0);
    MarkInOrder(s.mem, 2);
  }

  lemma {:induction false} TracksExtend(m: Snapshot, qs: seq<QualitySpec>, works: string -> bool)
    requires NoRepeats(m.complete)
    ensures var n := MarkTracks(m, qs, works);
            && m.complete <= n.complete && NoRepeats(n.complete)
            && n == m.(complete := n.complete)
            && forall q :: q in n.complete ==>
                 q in m.complete || exists i :: 0 <= i < |qs| && works(qs[i].name) && qs[i].name == q
  {
    if qs != [] {
      TracksExtend(m, qs[..|qs| - 1], works);
    }
  }

  lemma SeparateExtends(c: Config, s: State, e: Env)
    requires Good(c, s, s.mem) && InOrder(s) && s.pc.AtSeparate?
    ensures Extends(c, s, SeparateStep(c, s, e)) && InOrder(SeparateStep(c, s, e))
  {
    var qs := FittingBoth(AV_TABLE, c.width, c.height);
    TracksExtend(s.mem, qs, e.works);
    MarkInOrder(MarkTracks(s.mem, qs, e.works), 0);
    MarkInOrder(MarkTracks(s.mem, qs, e.works), 3);
  }

  lemma ExitExtends(c: Config, s: State, t: Tally, e: Env)
    requires Good(c, s, s.mem) && InOrder(s) && s.pc.AtVariant?
    ensures Extends(c, s, LoopExit(c, s, t, e)) && InOrder(LoopExit(c, s, t, e))
  {}

  lemma VariantExtends(c: Config, s: State, e: Env)
    requires Good(c, s, s.mem) && InOrder(s) && s.pc.AtVariant?
    ensures Extends(c, s, VariantStep(c, s, s.pc.i, s.pc.tally, e)) && InOrder(VariantStep(c, s, s.pc.i, s.pc.tally, e))
  {
    ExitExtends(c, s, s.pc.tally, e);
  }

  lemma EncodeExtends(c: Config, s: State, e: Env)
    requires Good(c, s, s.mem) && InOrder(s) && s.pc.AtEncode? && s.pc.i < |Variants(c)|
    ensures Extends(c, s, EncodeStep(c, s, s.pc.i, s.pc.tally, e)) && InOrder(EncodeStep(c, s, s.pc.i, s.pc.tally, e))
  {}

  lemma RecordExtends(c: Config, s: State, e: Env)
    requires Good(c, s, s.mem) && InOrder(s) && s.pc.AtRecord? && s.pc.i < |Variants(c)|
    requires s.pc.success ==> Variants(c)[s.pc.i].name in s.past.encoded
    requires !s.pc.success ==> Variants(c)[s.pc.i].name in s.past.lost
    ensures var t := RecordStep(c, s, s.pc.i, s.pc.tally, s.pc.success, e);
            Extends(c, s, t) && InOrder(t)
  {}

  lemma PartialExtends(c: Config, s: State, e: Env)
    requires Good(c, s, s.mem) && InOrder(s) && s.pc.AtPartial? && s.pc.verdict.Partial? && Losses(c, s)
    ensures Extends(c, s, PartialStep(s, s.pc.verdict, e)) && InOrder(PartialStep(s, s.pc.verdict, e))
  {}

  lemma MasterExtends(c: Config, s: State, e: Env)
    requires Good(c, s, s.mem) && InOrder(s) && s.pc.AtMaster?
    ensures Extends(c, s, MasterStep(s, s.pc.verdict, e)) && InOrder(MasterStep(s, s.pc.verdict, e))
  {
    MarkInOrder(s.mem, 0);
    MarkInOrder(s.mem, 3);
  }

  lemma FinalExtends(c: Config, s: State, e: Env)
    requires Good(c, s, s.mem) && InOrder(s) && s.pc.AtFinal?
    ensures Extends(c, s, FinalStep(s, e)) && InOrder(FinalStep(s, e))
  {
    MarkInOrder(s.mem, 0);
    MarkInOrder(s.mem, 4);
  }

  lemma FinishExtends(c: Config, s: State, e: Env)
    requires Good(c, s, s.mem) && InOrder(s) && s.pc.AtFinish?
    ensures Extends(c, s, FinishStep(s, s.pc.failures, e)) && InOrder(FinishStep(s, s.pc.failures, e))
  {
    var m := s.mem.(status := if s.pc.failures then PartlyCompleted else Completed);
    MarkInOrder(m, 0);
    MarkInOrder(m, 5);
  }

  // --------------------------------------------------------- the loop and its files

  /** Every encoded quality has all its chunks. */
  ghost predicate Files(c: Config, s: State)
  {
    && WithinFull(c.site, s.dir)
    && forall q :: q in s.past.encoded ==> q in s.dir && s.dir[q] == c.site.full(q) && c.site.full(q) > 0
  }

  /** While nothing failed, the first i variants are listed as a fault-free run lists them. */
  ghost predicate Faultless(c: Config, m: Snapshot, i: nat, t: Tally)
  {
    var vs := Variants(c);
    && i <= |vs|
    && (t.failed == [] ==>
          && t.chosen == vs[..i] && t.outputs == FullOutputs(c.site, vs)[..i]
          && forall k :: 0 <= k < i ==> vs[k].name in m.complete)
  }

  ghost predicate AllComplete(c: Config, m: Snapshot)
  {
    forall k :: 0 <= k < |Variants(c)| ==> Variants(c)[k].name in m.complete
  }

  /** The verdict and the playlist of a fault-free run. */
  ghost predicate FullResult(c: Config, s: State, v: Verdict)
  {
    v == Encoded(FullOutputs(c.site, Variants(c)), Variants(c)) && s.playlist == Variants(c) && AllComplete(c, s.mem)
  }

  ghost predicate LoopOk(c: Config, s: State)
  {
    match s.pc
    case AtVariant(i, t) => Faultless(c, s.mem, i, t)
    case AtEncode(i, t) => Faultless(c, s.mem, i, t) && i < |Variants(c)| && Variants(c)[i].name !in s.mem.complete
    case AtRecord(i, t, ok) =>
      && Faultless(c, s.mem, i, t) && i < |Variants(c)| && Variants(c)[i].name !in s.mem.complete
      && (ok ==> Variants(c)[i].name in s.past.encoded)
    case AtPartial(v) => v.Partial?
    case AtMaster(v) => v.Partial? || FullResult(c, s, v)
    case AtFinal(v) => FullResult(c, s, v)
    case AtFinish(failures) => s.playlist == Variants(c) && AllComplete(c, s.mem) && (failures <==> s.mem.failed != [])
    case Ending(a) =>
      a.Finished? ==> s.playlist == Variants(c) && AllComplete(c, s.mem) && (a.failures <==> s.mem.failed != [])
    case _ => true
  }

  /** The invariant of the combined encoding, the path of inputs without audio. */
  ghost predicate Combined(c: Config, s: State)
  {
    !c.hasAudio ==> Files(c, s) && LoopOk(c, s) && !s.pc.AtSeparate?
  }

  lemma SkipFaultless(c: Config, s: State, i: nat, t: Tally)
    requires Good(c, s, s.mem) && Files(c, s) && Faultless(c, s.mem, i, t) && i < |Variants(c)|
    requires Variants(c)[i].name in s.mem.complete
    ensures Faultless(c, s.mem, i + 1, Skip(c.site.hls, s.dir, t, Variants(c)[i]))
  {
    var vs := Variants(c);
    assert vs[..i + 1] == vs[..i] + [vs[i]];
    assert FullOutputs(c.site, vs)[..i + 1] == FullOutputs(c.site, vs)[..i] + [FullOutputs(c.site, vs)[i]];
  }

  lemma RecordFaultless(c: Config, s: State, i: nat, t: Tally, ok: bool)
    requires Files(c, s) && Faultless(c, s.mem, i, t) && i < |Variants(c)|
    requires ok ==> Variants(c)[i].name in s.past.encoded
    ensures var v := Variants(c)[i];
            Faultless(c, Record(s.mem, v, ok), i + 1,
                      if ok then Keep(t, c.site.hls, v, Chunks(s.dir, v.name)) else Lose(t, v))
  {
    var vs := Variants(c);
    assert vs[..i + 1] == vs[..i] + [vs[i]];
    assert FullOutputs(c.site, vs)[..i + 1] == FullOutputs(c.site, vs)[..i] + [FullOutputs(c.site, vs)[i]];
  }

  lemma ExitFaultless(c: Config, s: State, t: Tally, e: Env)
    requires LoopOk(c, s) && s.pc == AtVariant(|Variants(c)|, t)
    ensures LoopOk(c, LoopExit(c, s, t, e))
  {
    var vs := Variants(c);
    assert vs[..|vs|] == vs && FullOutputs(c.site, vs)[..|vs|] == FullOutputs(c.site, vs);
  }

  lemma EncodeKeepsFiles(c: Config, s: State, i: nat, t: Tally, e: Env)
    requires i < |Variants(c)| && Files(c, s)
    ensures Files(c, EncodeStep(c, s, i, t, e))
  {}

  lemma LoopKeepsCombined(c: Config, s: State, e: Env)
    requires Combined(c, s) && Good(c, s, s.mem) && !c.hasAudio
    requires s.pc.AtVariant? || s.pc.AtEncode? || s.pc.AtRecord?
    ensures Combined(c, WorkStep(c, s, e))
  {
    match s.pc
    case AtVariant(i, t) =>
      if i >= |Variants(c)| {
        ExitFaultless(c, s, t, e);
      } else if Variants(c)[i].name in s.mem.complete {
        SkipFaultless(c, s, i, t);
      }
    case AtEncode(i, t) => EncodeKeepsFiles(c, s, i, t, e);
    case AtRecord(i, t, ok) => RecordFaultless(c, s, i, t, ok);
  }

  lemma EndKeepsCombined(c: Config, s: State, e: Env)
    requires Combined(c, s) && !c.hasAudio
    requires s.pc.AtPartial? || s.pc.AtMaster? || s.pc.AtFinal? || s.pc.AtFinish? || s.pc.Ending?
    ensures Combined(c, WorkStep(c, s, e))
  {}

  lemma PreludeKeepsCombined(c: Config, s: State, e: Env)
    requires Combined(c, s) && !c.hasAudio
    requires s.pc.Idle? || s.pc.AtHash? || s.pc.AtDedup? || s.pc.AtAnalysis?
    ensures Combined(c, WorkStep(c, s, e))
  {}

  lemma WorkKeepsCombined(c: Config, s: State, e: Env)
    requires Combined(c, s) && (Active(s) ==> Good(c, s, s.mem))
    ensures Combined(c, WorkStep(c, s, e))
  {
    if !c.hasAudio {
      match s.pc
      case AtVariant(_, _) => LoopKeepsCombined(c, s, e);
      case AtEncode(_, _) => LoopKeepsCombined(c, s, e);
      case AtRecord(_, _, _) => LoopKeepsCombined(c, s, e);
      case Idle => PreludeKeepsCombined(c, s, e);
      case AtHash => PreludeKeepsCombined(c, s, e);
      case AtDedup => PreludeKeepsCombined(c, s, e);
      case AtAnalysis => PreludeKeepsCombined(c, s, e);
      case _ => EndKeepsCombined(c, s, e);
    }
  }

  // ------------------------------------------------------------- failures are real

  ghost predicate LostIn(names: seq<string>, s: State) { forall q :: q in names ==> q in s.past.lost }

  /** What the loop and its verdict call failed did fail. */
  ghost predicate Losses(c: Config, s: State)
  {
    match s.pc
    case AtVariant(_, t) => LostIn(t.failed, s)
    case AtEncode(_, t) => LostIn(t.failed, s)
    case AtRecord(i, t, ok) =>
      LostIn(t.failed, s) && (i < |Variants(c)| && !ok ==> Variants(c)[i].name in s.past.lost)
    case AtPartial(v) => v.Partial? ==> LostIn(v.failed, s)
    case _ => true
  }

  lemma LoopKeepsLosses(c: Config, s: State, e: Env)
    requires Losses(c, s) && (s.pc.AtVariant? || s.pc.AtEncode? || s.pc.AtRecord?)
    ensures Losses(c, WorkStep(c, s, e))
  {}

  lemma OthersKeepLosses(c: Config, s: State, e: Env)
    requires !s.pc.AtVariant? && !s.pc.AtEncode? && !s.pc.AtRecord? && !s.pc.AtPartial?
    ensures Losses(c, WorkStep(c, s, e))
  {}

  lemma WorkKeepsLosses(c: Config, s: State, e: Env)
    requires Losses(c, s)
    ensures Losses(c, WorkStep(c, s, e))
  {
    if s.pc.AtVariant? || s.pc.AtEncode? || s.pc.AtRecord? {
      LoopKeepsLosses(c, s, e);
    } else if !s.pc.AtPartial? {
      OthersKeepLosses(c, s, e);
    }
  }

  // ------------------------------------------------------------- all events together

  ghost predicate Inv(c: Config, s: State)
  {
    Checkpoints(c, s) && InOrder(s) && Combined(c, s) && Losses(c, s)
    && (c.hasAudio ==> !s.pc.AtVariant? && !s.pc.AtEncode? && !s.pc.AtRecord? && !s.pc.AtPartial?)
  }

  lemma WorkExtends(c: Config, s: State, e: Env)
    requires Inv(c, s) && Active(s) && !s.pc.Ending?
    ensures Extends(c, s, WorkStep(c, s, e)) && InOrder(WorkStep(c, s, e))
  {
    match s.pc
    case AtHash => HashExtends(c, s, e);
    case AtDedup => DedupExtends(c, s, e);
    case AtAnalysis => AnalysisExtends(c, s, e);
    case AtSeparate => SeparateExtends(c, s, e);
    case AtVariant(_, _) => VariantExtends(c, s, e);
    case AtEncode(_, _) => EncodeExtends(c, s, e);
    case AtRecord(_, _, _) => RecordExtends(c, s, e);
    case AtPartial(_) => PartialExtends(c, s, e);
    case AtMaster(_) => MasterExtends(c, s, e);
    case AtFinal(_) => FinalExtends(c, s, e);
    case AtFinish(_) => FinishExtends(c, s, e);
  }

  lemma WorkKeepsInv(c: Config, s: State, e: Env)
    requires Inv(c, s)
    ensures Inv(c, WorkStep(c, s, e))
  {
    WorkKeepsCombined(c, s, e);
    WorkKeepsLosses(c, s, e);
    if Active(s) && !s.pc.Ending? {
      WorkExtends(c, s, e);
      ExtendKeeps(c, s, WorkStep(c, s, e));
    }
  }

  lemma AttemptKeepsInv(c: Config, s: State, ev: Event)
    requires Inv(c, s) && ev.Attempt?
    ensures Inv(c, Next(c, s, ev))
  {}

  lemma OtherKeepsInv(c: Config, s: State, ev: Event)
    requires Inv(c, s) && !ev.Attempt? && !ev.Work?
    ensures Inv(c, Next(c, s, ev))
  {}

  lemma RunExtends(c: Config, events: seq<Event>, ev: Event)
    ensures Run(c, events + [ev]) == Next(c, Run(c, events), ev)
  {
    assert (events + [ev])[..|events|] == events;
  }

  lemma {:induction false} RunInv(c: Config, events: seq<Event>)
    ensures Inv(c, Run(c, events))
  {
    if events != [] {
      var s, ev := Run(c, events[..|events| - 1]), events[|events| - 1];
      RunInv(c, events[..|events| - 1]);
      match ev
      case Work(e) => WorkKeepsInv(c, s, e);
      case Attempt(_, _, _, _) => AttemptKeepsInv(c, s, ev);
      case _ => OtherKeepsInv(c, s, ev);
    }
  }

  // --------------------------------------------------------------- the job's record

  function RunningRecord(s: State): J.JobRecord { R.Hashed(J.WithStatus(s.past.before, J.Running), s.past.hash) }

  function DescribedRecord(s: State, failures: bool): J.JobRecord
  {
    var d := RunningRecord(s).(described := true);
    if failures then J.WithError(d, J.JobError(J.PartialEncoding, "encoding")) else d
  }

  /** The record at every point is what the attempt's own calls have made of it. */
  ghost predicate RecordOk(s: State)
  {
    match s.pc
    case Idle => s.last.Some? ==> s.job == R.AfterAttempt(s.past.before, s.last.value)
    case AtHash => s.past.hash == "" && s.job == RunningRecord(s)
    case AtFinish(failures) => s.job == DescribedRecord(s, failures)
    case Ending(a) => s.job == R.AfterAttempt(s.past.before, a)
    case _ => s.job == RunningRecord(s)
  }

  lemma {:induction false} RunRecord(c: Config, events: seq<Event>)
    ensures RecordOk(Run(c, events))
  {
    if events != [] {
      var s, ev := Run(c, events[..|events| - 1]), events[|events| - 1];
      RunRecord(c, events[..|events| - 1]);
      match ev
      case Work(e) => WorkKeepsRecord(c, s, e);
      case _ =>
    }
  }

  lemma WorkKeepsRecord(c: Config, s: State, e: Env)
    requires RecordOk(s)
    ensures RecordOk(WorkStep(c, s, e))
  {
    match s.pc
    case AtVariant(_, _) => LoopKeepsRecord(c, s, e);
    case AtEncode(_, _) => LoopKeepsRecord(c, s, e);
    case AtRecord(_, _, _) => LoopKeepsRecord(c, s, e);
    case AtMaster(_) => EndKeepsRecord(c, s, e);
    case AtFinal(_) => EndKeepsRecord(c, s, e);
    case AtFinish(_) => EndKeepsRecord(c, s, e);
    case Ending(_) => EndKeepsRecord(c, s, e);
    case _ => PreludeKeepsRecord(c, s, e);
  }

  lemma LoopKeepsRecord(c: Config, s: State, e: Env)
    requires RecordOk(s) && (s.pc.AtVariant? || s.pc.AtEncode? || s.pc.AtRecord?)
    ensures RecordOk(WorkStep(c, s, e))
  {
    var t := WorkStep(c, s, e);
    assert t.job == s.job && t.past.before == s.past.before && t.past.hash == s.past.hash;
  }

  lemma EndKeepsRecord(c: Config, s: State, e: Env)
    requires RecordOk(s) && (s.pc.AtMaster? || s.pc.AtFinal? || s.pc.AtFinish? || s.pc.Ending?)
    ensures RecordOk(WorkStep(c, s, e))
  {}

  lemma PreludeKeepsRecord(c: Config, s: State, e: Env)
    requires RecordOk(s)
    requires s.pc.Idle? || s.pc.AtHash? || s.pc.AtDedup? || s.pc.AtAnalysis? || s.pc.AtSeparate? || s.pc.AtPartial?
    ensures RecordOk(WorkStep(c, s, e))
  {}

  // ----------------------------------------------------------------- repeated work

  /** The success that EncodeQuality reported and that is not yet in the state. */
  function Unrecorded(c: Config, s: State): seq<string>
  {
    if s.pc.AtRecord? && s.pc.success && s.pc.i < |Variants(c)| then [Variants(c)[s.pc.i].name] else []
  }

  ghost predicate LogOk(c: Config, s: State)
  {
    !s.past.stale ==> NoRepeats(s.past.log) && (Active(s) ==> s.mem.complete + Unrecorded(c, s) == s.past.log)
  }

  lemma LoopKeepsLog(c: Config, s: State, e: Env)
    requires Inv(c, s) && LogOk(c, s) && (s.pc.AtVariant? || s.pc.AtEncode? || s.pc.AtRecord?)
    ensures LogOk(c, WorkStep(c, s, e))
  {}

  /** The steps outside the loop leave the log and the completed qualities alone. */
  ghost predicate SameLog(s: State, t: State)
  {
    t.mem.complete == s.mem.complete && t.past.log == s.past.log && t.past.stale == s.past.stale && !t.pc.AtRecord?
  }

  lemma PreludeSameLog(c: Config, s: State, e: Env)
    requires s.pc.AtHash? || s.pc.AtDedup? || s.pc.AtAnalysis?
    ensures SameLog(s, WorkStep(c, s, e))
  {}

  lemma EndSameLog(c: Config, s: State, e: Env)
    requires s.pc.Idle? || s.pc.AtPartial? || s.pc.AtMaster? || s.pc.AtFinal? || s.pc.AtFinish? || s.pc.Ending?
    ensures SameLog(s, WorkStep(c, s, e))
  {}

  lemma WorkKeepsLog(c: Config, s: State, e: Env)
    requires !c.hasAudio && Inv(c, s) && LogOk(c, s)
    ensures LogOk(c, WorkStep(c, s, e))
  {
    if s.pc.AtVariant? || s.pc.AtEncode? || s.pc.AtRecord? {
      LoopKeepsLog(c, s, e);
    } else if s.pc.AtHash? || s.pc.AtDedup? || s.pc.AtAnalysis? {
      PreludeSameLog(c, s, e);
    } else {
      EndSameLog(c, s, e);
    }
  }

  lemma {:induction false} RunLog(c: Config, events: seq<Event>)
    requires !c.hasAudio
    ensures LogOk(c, Run(c, events))
  {
    if events != [] {
      var s, ev := Run(c, events[..|events| - 1]), events[|events| - 1];
      RunInv(c, events[..|events| - 1]);
      RunLog(c, events[..|events| - 1]);
      match ev
      case Work(e) => WorkKeepsLog(c, s, e);
      case _ =>
    }
  }

  // ------------------------------------------------ the latest encoding of a quality

  ghost predicate AllIn(names: seq<string>, good: set<string>) { forall q :: q in names ==> q in good }

  /** What any copy of the checkpoint lists has been encoded successfully at last. */
  ghost predicate CopiesIntact(s: State)
  {
    && (s.disk.Some? ==> AllIn(s.disk.value.complete, s.past.intact))
    && (Active(s) ==> AllIn(s.mem.complete, s.past.intact))
    && (s.heart.Loaded? ==> AllIn(s.heart.state.complete, s.past.intact))
  }

  /** Nothing is ever encoded but by EncodeQuality. */
  predicate OnlyCombined(c: Config) { !c.hasAudio || FittingBoth(AV_TABLE, c.width, c.height) == [] }

  ghost predicate IntactOk(c: Config, s: State)
  {
    && CopiesIntact(s)
    && (s.pc.AtRecord? && s.pc.success && s.pc.i < |Variants(c)| ==> Variants(c)[s.pc.i].name in s.past.intact)
  }

  lemma EncodeKeepsIntact(c: Config, s: State, i: nat, t: Tally, e: Env)
    requires IntactOk(c, s) && Checkpoints(c, s) && s.pc == AtEncode(i, t)
    requires i < |Variants(c)| && Variants(c)[i].name !in s.mem.complete
    ensures IntactOk(c, EncodeStep(c, s, i, t, e))
  {
    PrefixMembers(s.disk.value.complete, s.mem.complete);
    if s.heart.Loaded? {
      PrefixMembers(s.heart.state.complete, s.mem.complete);
    }
  }

  lemma RecordKeepsIntact(c: Config, s: State, e: Env)
    requires IntactOk(c, s) && s.pc.AtRecord?
    ensures IntactOk(c, WorkStep(c, s, e))
  {}

  lemma VariantKeepsIntact(c: Config, s: State, e: Env)
    requires IntactOk(c, s) && s.pc.AtVariant?
    ensures IntactOk(c, WorkStep(c, s, e))
  {}

  lemma PreludeKeepsIntact(c: Config, s: State, e: Env)
    requires IntactOk(c, s) && (s.pc.Idle? || s.pc.AtHash? || s.pc.AtDedup? || s.pc.AtAnalysis?)
    ensures IntactOk(c, WorkStep(c, s, e))
  {}

  lemma EndKeepsIntact(c: Config, s: State, e: Env)
    requires IntactOk(c, s)
    requires s.pc.AtPartial? || s.pc.AtMaster? || s.pc.AtFinal? || s.pc.AtFinish? || s.pc.Ending?
    ensures IntactOk(c, WorkStep(c, s, e))
  {}

  lemma SeparateKeepsIntact(c: Config, s: State, e: Env)
    requires IntactOk(c, s) && s.pc.AtSeparate? && FittingBoth(AV_TABLE, c.width, c.height) == []
    ensures IntactOk(c, WorkStep(c, s, e))
  {}

  lemma WorkKeepsIntact(c: Config, s: State, e: Env)
    requires OnlyCombined(c) && Inv(c, s) && LoopRuns(c, s) && IntactOk(c, s)
    ensures IntactOk(c, WorkStep(c, s, e))
  {
    match s.pc
    case AtVariant(_, _) => VariantKeepsIntact(c, s, e);
    case AtEncode(i, t) => EncodeKeepsIntact(c, s, i, t, e);
    case AtRecord(_, _, _) => RecordKeepsIntact(c, s, e);
    case AtSeparate => SeparateKeepsIntact(c, s, e);
    case Idle => PreludeKeepsIntact(c, s, e);
    case AtHash => PreludeKeepsIntact(c, s, e);
    case AtDedup => PreludeKeepsIntact(c, s, e);
    case AtAnalysis => PreludeKeepsIntact(c, s, e);
    case _ => EndKeepsIntact(c, s, e);
  }

  lemma {:induction false} RunIntact(c: Config, events: seq<Event>)
    requires OnlyCombined(c)
    ensures IntactOk(c, Run(c, events))
  {
    if events != [] {
      var before := events[..|events| - 1];
      RunIntact(c, before);
      match events[|events| - 1]
      case Work(e) =>
        RunInv(c, before);
        RunLoops(c, before);
        WorkKeepsIntact(c, Run(c, before), e);
      case _ =>
    }
  }

  // ------------------------------------------------- the loop is the resuming encoder

  function Script(outcomes: seq<Outcome>): nat -> Outcome
  {
    (i: nat) => if i < |outcomes| then outcomes[i] else NoDirectory
  }

  lemma {:induction false} ScriptPrefix(c: Site, start: Scene, vs: seq<Variant>, a: seq<Outcome>, b: seq<Outcome>,
                                        n: nat)
    requires n <= |vs| && n <= |a| && a <= b
    ensures ResumeRun(c, start, vs, Script(a), n) == ResumeRun(c, start, vs, Script(b), n)
  {
    if n > 0 {
      ScriptPrefix(c, start, vs, a, b, n - 1);
    }
  }

  /** Iterations 0 to i - 1 have gone as ResumeRun says. */
  ghost predicate RanTo(c: Config, s: State, i: nat, scene: Scene)
  {
    i <= |Variants(c)| && |s.past.outcomes| == i && s.past.entry.tally == NoTally && s.past.entry.calls == []
    && scene == ResumeRun(c.site, s.past.entry, Variants(c), Script(s.past.outcomes), i)
  }

  ghost predicate LoopRuns(c: Config, s: State)
  {
    match s.pc
    case AtVariant(i, t) => RanTo(c, s, i, Scene(s.mem, s.dir, t, s.past.calls))
    case AtEncode(i, t) =>
      && i < |Variants(c)| && Variants(c)[i].name !in s.mem.complete
      && RanTo(c, s, i, Scene(s.mem, s.dir, t, s.past.calls))
    case AtRecord(i, t, ok) =>
      i < |Variants(c)| && var v := Variants(c)[i];
      RanTo(c, s, i + 1, Scene(Record(s.mem, v, ok), s.dir,
                               if ok then Keep(t, c.site.hls, v, Chunks(s.dir, v.name)) else Lose(t, v), s.past.calls))
    case AtPartial(v) => Returned(c, s, v, [])
    case AtMaster(v) => Returned(c, s, v, if v.Partial? then v.failed else [])
    case _ => true
  }

  /** encodeWithResume returned this verdict, having made these calls, written this
      playlist and left this state; since then these failures were marked again. */
  ghost predicate Returned(c: Config, s: State, v: Verdict, again: seq<string>)
  {
    var vs := Variants(c);
    && |s.past.outcomes| == |vs|
    && s.past.entry.tally == NoTally && s.past.entry.calls == []
    && var end := ResumeRun(c.site, s.past.entry, vs, Script(s.past.outcomes), |vs|);
    && s.past.calls == end.calls && s.dir == end.dir && s.playlist == end.tally.chosen
    && s.mem == end.state.(failed := end.state.failed + again)
    && v == ResumeVerdict(end.tally, |vs|, true)
  }

  lemma StepRuns(c: Config, s: State, i: nat, scene: Scene, o: Outcome)
    requires RanTo(c, s, i, scene) && i < |Variants(c)|
    ensures RanTo(c, s.(past := s.past.(outcomes := s.past.outcomes + [o])), i + 1,
                  ResumeStep(c.site, scene, Variants(c)[i], o))
  {
    ScriptPrefix(c.site, s.past.entry, Variants(c), s.past.outcomes, s.past.outcomes + [o], i);
  }

  lemma VariantKeepsLoop(c: Config, s: State, i: nat, t: Tally, e: Env)
    requires LoopRuns(c, s) && s.pc == AtVariant(i, t)
    ensures LoopRuns(c, WorkStep(c, s, e))
  {
    if i < |Variants(c)| && Variants(c)[i].name in s.mem.complete {
      StepRuns(c, s, i, Scene(s.mem, s.dir, t, s.past.calls), NoDirectory);
    }
  }

  lemma EncodeKeepsLoop(c: Config, s: State, i: nat, t: Tally, e: Env)
    requires LoopRuns(c, s) && s.pc == AtEncode(i, t)
    ensures LoopRuns(c, WorkStep(c, s, e))
  {
    StepRuns(c, s, i, Scene(s.mem, s.dir, t, s.past.calls), e.outcome);
  }

  lemma AnalysisKeepsLoop(c: Config, s: State, e: Env)
    requires s.pc.AtAnalysis?
    ensures LoopRuns(c, WorkStep(c, s, e))
  {
    if !c.hasAudio && e.ok {
      var t := WorkStep(c, s, e);
      assert ResumeRun(c.site, t.past.entry, Variants(c), Script([]), 0) == t.past.entry;
    }
  }

  lemma RecordKeepsLoop(c: Config, s: State, e: Env)
    requires LoopRuns(c, s) && s.pc.AtRecord?
    ensures LoopRuns(c, WorkStep(c, s, e))
  {}

  lemma OthersKeepLoop(c: Config, s: State, e: Env)
    requires LoopRuns(c, s) && !s.pc.AtAnalysis? && !s.pc.AtVariant? && !s.pc.AtEncode? && !s.pc.AtRecord?
    ensures LoopRuns(c, WorkStep(c, s, e))
  {}

  lemma WorkKeepsLoop(c: Config, s: State, e: Env)
    requires LoopRuns(c, s)
    ensures LoopRuns(c, WorkStep(c, s, e))
  {
    match s.pc
    case AtAnalysis => AnalysisKeepsLoop(c, s, e);
    case AtVariant(i, t) => VariantKeepsLoop(c, s, i, t, e);
    case AtEncode(i, t) => EncodeKeepsLoop(c, s, i, t, e);
    case AtRecord(_, _, _) => RecordKeepsLoop(c, s, e);
    case _ => OthersKeepLoop(c, s, e);
  }

  lemma {:induction false} RunLoops(c: Config, events: seq<Event>)
    ensures LoopRuns(c, Run(c, events))
  {
    if events != [] {
      RunLoops(c, events[..|events| - 1]);
      match events[|events| - 1]
      case Work(e) => WorkKeepsLoop(c, Run(c, events[..|events| - 1]), e);
      case _ =>
    }
  }

  // ------------------------------------------------------------------ main results

  /** The moment at which encodeWithResume returns without an error. */
  ghost predicate ResumeReturnsNil(c: Config, s: State) { !c.hasAudio && s.pc.AtMaster? && s.pc.verdict.Encoded? }

  lemma VariantsUsable(c: Config)
    ensures Variants(c) != [] && DistinctNames(Variants(c))
  {
    SelectedIsPrefix(c.height);
  }

  /** Main result, resume transparency: after any sequence of failed attempts, failed and
      stale saves, crashes and reloads, a call of encodeWithResume that returns nil
      yields the outputs, the variants and the master playlist of one fault-free run. */
  lemma ResumeTransparency(c: Config, events: seq<Event>)
    requires ResumeReturnsNil(c, Run(c, events))
    ensures Run(c, events).pc.verdict == FaultFree(c.site, Variants(c))
    ensures Run(c, events).playlist == Variants(c) == FaultFree(c.site, Variants(c)).chosen
    ensures var outputs, vs := Run(c, events).pc.verdict.outputs, Variants(c);
            |outputs| == |vs| && forall k :: 0 <= k < |vs| ==>
              Describes(c.site.hls, outputs[k], vs[k].name, c.site.full(vs[k].name))
  {
    RunInv(c, events);
    VariantsUsable(c);
    FaultFreeEncodesAll(c.site, Variants(c));
  }

  /** Main result: at every moment the checkpoint on disk and the copy that the heartbeat
      holds are earlier versions of the state in memory, and every quality any of them
      lists was encoded, has all its chunks, and its latest encoding succeeded; and every
      failure any of them lists did happen. */
  lemma StaleButSound(c: Config, events: seq<Event>)
    ensures var s := Run(c, events);
            && (Active(s) ==> s.disk.Some? && Earlier(s.disk.value, s.mem))
            && (s.heart.Loaded? ==> Active(s) && Earlier(s.heart.state, s.mem))
            && (s.disk.Some? ==> Genuine(c, s, s.disk.value))
            && (s.heart.Loaded? ==> Genuine(c, s, s.heart.state))
            && (Active(s) ==> Genuine(c, s, s.mem))
  {
    RunInv(c, events);
    if !c.hasAudio {
      RunIntact(c, events);
    }
  }

  ghost predicate Genuine(c: Config, s: State, m: Snapshot)
  {
    && NoRepeats(m.complete)
    && (forall q :: q in m.complete ==> q in s.past.encoded)
    && (forall q :: q in m.failed ==> q in s.past.lost)
    && (!c.hasAudio ==> forall q :: q in m.complete ==> q in s.dir && s.dir[q] == c.site.full(q) && s.dir[q] > 0)
    && (!c.hasAudio ==> AllIn(m.complete, s.past.intact))
  }

  /** Main result: in memory and on disk the completed steps are always a prefix of the
      pipeline, so without repetition; and while the process lives, a marked hash step
      means that the job's record holds a hash. */
  lemma PipelineOrder(c: Config, events: seq<Event>)
    ensures var s := Run(c, events);
            && (s.disk.Some? ==> StepsInOrder(s, s.disk.value.steps))
            && (Active(s) ==> StepsInOrder(s, s.mem.steps) && |s.mem.steps| >= Reached(s.pc))
  {
    RunInv(c, events);
  }

  ghost predicate StepsInOrder(s: State, steps: seq<Step>)
  {
    steps <= PIPELINE && (HashComputation in steps && !s.past.crashed ==> s.job.hash != "")
  }

  /** Main result: an attempt does to the job's record exactly what the summary of it in
      the retry loop says (module Retrying). */
  lemma AttemptSummary(c: Config, events: seq<Event>)
    requires Run(c, events).pc.Idle? && Run(c, events).last.Some?
    ensures var s := Run(c, events); s.job == R.AfterAttempt(s.past.before, s.last.value)
  {
    RunRecord(c, events);
  }

  /** Main result: as long as no attempt began from a stale checkpoint, EncodeQuality is
      never called for a quality that was encoded before, so no quality was encoded twice,
      and an attempt's completed qualities are the successes so far. */
  lemma NoRepeatedWork(c: Config, events: seq<Event>)
    requires !c.hasAudio && !Run(c, events).past.stale
    ensures var s := Run(c, events);
            && NoRepeats(s.past.log)
            && (Active(s) ==> s.mem.complete + Unrecorded(c, s) == s.past.log)
            && (s.pc.AtEncode? ==> s.pc.i < |Variants(c)| && Variants(c)[s.pc.i].name !in s.past.log)
  {
    RunInv(c, events);
    RunLog(c, events);
  }

  /** Main result: a job without audio that ends through finalization has every selected
      variant among its completed qualities and in its playlist, under either final
      status: PARTIAL_SUCCESS only tells that a failure was recorded on the way. */
  lemma FinalizedIsComplete(c: Config, events: seq<Event>)
    requires !c.hasAudio && Run(c, events).pc.Ending? && Run(c, events).pc.attempt.Finished?
    ensures AllComplete(c, Run(c, events).mem) && Run(c, events).playlist == Variants(c)
    ensures Run(c, events).pc.attempt.failures <==> Run(c, events).mem.failed != []
  {
    RunInv(c, events);
  }

  /** The loop over the variants, heartbeats and all, is a run of EncodeWithResume. */
  lemma LoopIsResumeRun(c: Config, events: seq<Event>)
    requires Run(c, events).pc.AtMaster? || Run(c, events).pc.AtPartial?
    ensures var s := Run(c, events);
            Returned(c, s, s.pc.verdict, if s.pc.AtMaster? && s.pc.verdict.Partial? then s.pc.verdict.failed else [])
  {
    RunLoops(c, events);
  }

  /** Main result: the checkpoint of a job none of whose attempts succeeded says
      "processing", never "failed". */
  lemma FailureIsNotOnDisk(c: Config, events: seq<Event>)
    requires Run(c, events).disk.Some?
    ensures Run(c, events).disk.value.status != SizeExceeded
    ensures !Run(c, events).past.succeeded ==> Run(c, events).disk.value.status == Processing
  {
    RunInv(c, events);
  }
}
