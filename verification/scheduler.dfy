/** Delayed execution of jobs (internal/application/services/scheduler_service.go).

    Calls of ScheduleJob are numbered; the number stands for the ScheduledJob object
    the call creates, with its job and its timer. `id(k)` is the job ID of call k;
    two calls may carry the same ID. */
module Scheduling {
  import opened Options

  /** A time.AfterFunc timer and the goroutine it starts. */
  datatype Timer =
    | Armed
    | Stopped
    | Fired             // the goroutine runs, before it has the mutex
    | Sending(job: nat) // it claimed this call's job, before the channel send
    | Done

  /** The service's map, the timers and the jobs sent to the queue so far. */
  datatype Service = Service(entry: map<string, nat>, timer: map<nat, Timer>, queue: seq<nat>)

  function StopTimer(timer: map<nat, Timer>, k: nat): map<nat, Timer>
  {
    if k in timer && timer[k] == Armed then timer[k := Stopped] else timer
  }

  function Store(s: Service, id: string, k: nat): Service { s.(entry := s.entry[id := k]) }

  function Cancel(s: Service, id: string): Service
  {
    if id !in s.entry then s
    else s.(entry := s.entry - {id}, timer := StopTimer(s.timer, s.entry[id]))
  }

  /** The critical section of executeScheduledJob, run by the goroutine of timer k. */
  function Claim(s: Service, id: string, k: nat): Service
  {
    if id !in s.entry then s.(timer := s.timer[k := Done])
    else s.(entry := s.entry - {id}, timer := s.timer[k := Sending(s.entry[id])])
  }

  function Send(s: Service, k: nat): Service
    requires k in s.timer && s.timer[k].Sending?
  {
    s.(queue := s.queue + [s.timer[k].job], timer := s.timer[k := Done])
  }

  function StopAll(s: Service): Service
  {
    Service(map[],
            map k | k in s.timer :: if k in s.entry.Values && s.timer[k] == Armed then Stopped else s.timer[k],
            s.queue)
  }

  // ---------------------------------------------------------------- the program

  class SchedulerService {
    var scheduledJobs: map<string, nat>
    var timers: map<nat, Timer>
    var jobQueue: seq<nat>

    function View(): Service
      reads this
    {
      Service(scheduledJobs, timers, jobQueue)
    }

    constructor ()
      ensures View() == Service(map[], map[], [])
    {
      scheduledJobs, timers, jobQueue := map[], map[], [];
    }

    method ScheduleJob(k: nat, id: string, delay: int)
      modifies this
      ensures View() == if delay < 0 then old(View()).(queue := old(jobQueue) + [k])
                        else Store(old(View()).(timer := old(timers)[k := Armed]), id, k)
    {
      if delay < 0 {
        jobQueue := jobQueue + [k];
        return;
      }
      timers := timers[k := Armed];
      scheduledJobs := scheduledJobs[id := k];
    }

    method CancelScheduledJob(id: string)
      modifies this
      ensures View() == Cancel(old(View()), id)
    {
      if id !in scheduledJobs {
        return;
      }
      timers := StopTimer(timers, scheduledJobs[id]);
      scheduledJobs := scheduledJobs - {id};
    }

    method ExecuteScheduledJob(k: nat, id: string)
      modifies this
      ensures var claimed := Claim(old(View()), id, k);
              View() == if claimed.timer[k].Sending? then Send(claimed, k) else claimed
    {
      if id !in scheduledJobs {
        timers := timers[k := Done];
        return;
      }
      var job := scheduledJobs[id];
      scheduledJobs := scheduledJobs - {id};
      jobQueue := jobQueue + [job];
      timers := timers[k := Done];
    }

    method Stop()
      modifies this
      ensures View() == StopAll(old(View()))
    {
      while scheduledJobs != map[]
        invariant scheduledJobs.Keys <= old(scheduledJobs).Keys && jobQueue == old(jobQueue)
        invariant forall id :: id in scheduledJobs ==> scheduledJobs[id] == old(scheduledJobs)[id]
        invariant timers.Keys == old(timers).Keys
        invariant forall k :: k in timers ==>
                    || timers[k] == StopAll(old(View())).timer[k]
                    || (k in scheduledJobs.Values && timers[k] == old(timers)[k])
        decreases scheduledJobs.Keys
      {
        var id :| id in scheduledJobs;
        timers := StopTimer(timers, scheduledJobs[id]);
        scheduledJobs := scheduledJobs - {id};
      }
    }
  }

  // --------------------------------------------------------------- interleavings

  /** What has become of one call of ScheduleJob; the first three hold the mutex. */
  datatype Phase =
    | Arming                // before time.AfterFunc
    | Storing               // after it, before the map store
    | Late                  // the time is past, before the channel send
    | Pending
    | Cancelled             // by CancelScheduledJob or Stop
    | Claimed(via: nat)      // taken out of the map by the goroutine of this call's timer
    | Enqueued(via: nat)     // sent to the job queue by it
    | Overwritten(via: nat)  // this later call with the same ID took its place in the map

  datatype State = State(svc: Service, phase: map<nat, Phase>, holder: Option<nat>)

  const Init := State(Service(map[], map[], []), map[], None)

  datatype Event =
    | CallSchedule(k: nat, past: bool)  // takes the mutex, then computes the delay
    | ArmTimer(k: nat)                  // time.AfterFunc
    | StoreEntry(k: nat)                // the map store and the deferred unlock
    | SendLate(k: nat)
    | Fire(k: nat)
    | Execute(k: nat)
    | SendJob(k: nat)
    | CallCancel(id: string)
    | CallStop

  predicate Is(s: State, k: nat, p: Phase) { k in s.phase && s.phase[k] == p }

  predicate TimerIs(s: State, k: nat, t: Timer) { k in s.svc.timer && s.svc.timer[k] == t }

  predicate Sends(s: State, k: nat) { k in s.svc.timer && s.svc.timer[k].Sending? }

  function SetPhase(s: State, k: nat, p: Phase): State { s.(phase := s.phase[k := p]) }

  /** Marks the call whose entry is about to leave the map, if there is one. */
  function MarkEntry(s: State, id: string, p: Phase): State
  {
    if id in s.svc.entry then SetPhase(s, s.svc.entry[id], p) else s
  }

  /** An event that cannot happen leaves the state alone. */
  function Step(id: nat -> string, s: State, e: Event): State
  {
    match e
    case CallSchedule(k, past) =>
      if s.holder.None? && k !in s.phase then
        SetPhase(s, k, if past then Late else Arming).(holder := Some(k))
      else s
    case ArmTimer(k) =>
      if Is(s, k, Arming) then
        SetPhase(s, k, Storing).(svc := s.svc.(timer := s.svc.timer[k := Armed]))
      else s
    case StoreEntry(k) =>
      if Is(s, k, Storing) then
        SetPhase(MarkEntry(s, id(k), Overwritten(k)), k, Pending).(svc := Store(s.svc, id(k), k), holder := None)
      else s
    case SendLate(k) =>
      if Is(s, k, Late) then
        SetPhase(s, k, Enqueued(k)).(svc := s.svc.(queue := s.svc.queue + [k]), holder := None)
      else s
    case Fire(k) =>
      if TimerIs(s, k, Armed) then s.(svc := s.svc.(timer := s.svc.timer[k := Fired])) else s
    case Execute(k) =>
      if s.holder.None? && TimerIs(s, k, Fired) then
        MarkEntry(s, id(k), Claimed(k)).(svc := Claim(s.svc, id(k), k))
      else s
    case SendJob(k) =>
      if Sends(s, k) then
        SetPhase(s, s.svc.timer[k].job, Enqueued(k)).(svc := Send(s.svc, k))
      else s
    case CallCancel(jobID) =>
      if s.holder.None? then
        MarkEntry(s, jobID, Cancelled).(svc := Cancel(s.svc, jobID))
      else s
    case CallStop =>
      if s.holder.None? then
        s.(svc := StopAll(s.svc),
           phase := map k | k in s.phase :: if s.phase[k] == Pending then Cancelled else s.phase[k])
      else s
  }

  function Run(id: nat -> string, events: seq<Event>): State
  {
    if events == [] then Init else Step(id, Run(id, events[..|events| - 1]), events[|events| - 1])
  }

  // ------------------------------------------------------------------ invariants

  /** The goroutine of call k's timer has yet to take the mutex. */
  predicate Live(s: State, k: nat) { TimerIs(s, k, Armed) || TimerIs(s, k, Fired) }

  /** `via` is a call with the same ID as k. */
  predicate Kin(id: nat -> string, s: State, k: nat, via: nat)
  {
    via in s.phase && id(via) == id(k)
  }

  ghost predicate PhaseOk(id: nat -> string, s: State, k: nat)
    requires k in s.phase
  {
    match s.phase[k]
    case Arming => s.holder == Some(k) && k !in s.svc.timer
    case Late => s.holder == Some(k) && k !in s.svc.timer
    case Storing => s.holder == Some(k) && Live(s, k)
    case Pending => Live(s, k) && id(k) in s.svc.entry && s.svc.entry[id(k)] == k
    case Cancelled => !TimerIs(s, k, Armed)
    case Claimed(via) => Kin(id, s, k, via) && TimerIs(s, via, Sending(k)) && (Live(s, k) ==> via != k)
    case Enqueued(via) => Kin(id, s, k, via) && k in s.svc.queue && (Live(s, k) ==> via != k)
    case Overwritten(via) => Kin(id, s, k, via) && via != k
  }

  ghost predicate CallOk(id: nat -> string, s: State, k: nat)
  {
    && (k in s.phase ==> PhaseOk(id, s, k))
    && (k in s.svc.timer ==> k in s.phase)
    && (TimerIs(s, k, Stopped) ==> Is(s, k, Cancelled))
    && (Sends(s, k) ==> Is(s, s.svc.timer[k].job, Claimed(k)))
    && (k in s.svc.queue ==> k in s.phase && s.phase[k].Enqueued?)
  }

  ghost predicate EntryOk(id: nat -> string, s: State, j: string)
  {
    j in s.svc.entry ==> id(s.svc.entry[j]) == j && Is(s, s.svc.entry[j], Pending)
  }

  ghost predicate NoDuplicates(q: seq<nat>) { forall i, j :: 0 <= i < j < |q| ==> q[i] != q[j] }

  ghost predicate Inv(id: nat -> string, s: State)
  {
    && (forall k :: CallOk(id, s, k))
    && (forall j :: EntryOk(id, s, j))
    && NoDuplicates(s.svc.queue)
  }

  /** The facts of the invariant about the call, the entry and the carried job of one number. */
  ghost predicate Near(id: nat -> string, s: State, k: nat)
  {
    && CallOk(id, s, k) && EntryOk(id, s, id(k))
    && (id(k) in s.svc.entry ==> CallOk(id, s, s.svc.entry[id(k)]))
    && (Sends(s, k) ==> CallOk(id, s, s.svc.timer[k].job))
  }

  lemma ScheduleKeepsCall(id: nat -> string, s: State, e: Event, k: nat)
    requires Inv(id, s) && (e.CallSchedule? || e.ArmTimer? || e.SendLate? || e.StoreEntry?)
    ensures CallOk(id, Step(id, s, e), k)
  {
    assert Near(id, s, k) && Near(id, s, e.k);
  }

  lemma TimerKeepsCall(id: nat -> string, s: State, e: Event, k: nat)
    requires Inv(id, s) && (e.Fire? || e.Execute? || e.SendJob?)
    ensures CallOk(id, Step(id, s, e), k)
  {
    assert Near(id, s, k) && Near(id, s, e.k);
  }

  lemma CancelKeepsCall(id: nat -> string, s: State, jobID: string, k: nat)
    requires Inv(id, s)
    ensures CallOk(id, Step(id, s, CallCancel(jobID)), k)
  {
    assert Near(id, s, k) && EntryOk(id, s, jobID);
    if k in s.phase && (s.phase[k].Claimed? || s.phase[k].Enqueued?) {
      assert CallOk(id, s, s.phase[k].via);
    }
  }

  lemma StopKeepsCall(id: nat -> string, s: State, k: nat)
    requires Inv(id, s)
    ensures CallOk(id, Step(id, s, CallStop), k)
  {
    assert Near(id, s, k);
    if j :| j in s.svc.entry && s.svc.entry[j] == k {
      assert EntryOk(id, s, j);
    }
  }

  lemma StepKeepsCall(id: nat -> string, s: State, e: Event, k: nat)
    requires Inv(id, s)
    ensures CallOk(id, Step(id, s, e), k)
  {
    match e
    case CallSchedule(_, _) => ScheduleKeepsCall(id, s, e, k);
    case ArmTimer(_) => ScheduleKeepsCall(id, s, e, k);
    case StoreEntry(_) => ScheduleKeepsCall(id, s, e, k);
    case SendLate(_) => ScheduleKeepsCall(id, s, e, k);
    case Fire(_) => TimerKeepsCall(id, s, e, k);
    case Execute(_) => TimerKeepsCall(id, s, e, k);
    case SendJob(_) => TimerKeepsCall(id, s, e, k);
    case CallCancel(jobID) => CancelKeepsCall(id, s, jobID, k);
    case CallStop => StopKeepsCall(id, s, k);
  }

  lemma StepKeepsEntry(id: nat -> string, s: State, e: Event, j: string)
    requires Inv(id, s)
    ensures EntryOk(id, Step(id, s, e), j)
  {
    assert EntryOk(id, s, j);
    match e
    case CallCancel(jobID) =>
      assert EntryOk(id, s, jobID);
    case CallStop =>
    case _ =>
      assert Near(id, s, e.k);
  }

  lemma StepKeepsInv(id: nat -> string, s: State, e: Event)
    requires Inv(id, s)
    ensures Inv(id, Step(id, s, e))
  {
    forall k ensures CallOk(id, Step(id, s, e), k) {
      StepKeepsCall(id, s, e, k);
    }
    forall j ensures EntryOk(id, Step(id, s, e), j) {
      StepKeepsEntry(id, s, e, j);
    }
    if e.SendJob? || e.SendLate? {
      assert Near(id, s, e.k);
    }
  }

  lemma {:induction false} RunInv(id: nat -> string, events: seq<Event>)
    ensures Inv(id, Run(id, events))
  {
    if events != [] {
      RunInv(id, events[..|events| - 1]);
      StepKeepsInv(id, Run(id, events[..|events| - 1]), events[|events| - 1]);
    }
  }

  // ---------------------------------------------------------------- main results

  predicate InMap(id: nat -> string, s: State, k: nat)
  {
    id(k) in s.svc.entry && s.svc.entry[id(k)] == k
  }

  /** Some timer goroutine holds call k's job between the map and the queue. */
  ghost predicate InHand(s: State, k: nat) { exists g :: TimerIs(s, g, Sending(k)) }

  ghost predicate DistinctIDs(id: nat -> string, s: State)
  {
    forall k, l :: k in s.phase && l in s.phase && k != l ==> id(k) != id(l)
  }

  /** Main result: in every interleaving and whenever the mutex is free, each scheduled
      job is in the map, in the hands of a timer goroutine, in the queue (once),
      cancelled, or overwritten by a later call with the same ID: always exactly one of
      the five, and with distinct IDs one of the first four. */
  lemma ExactlyOnce(id: nat -> string, events: seq<Event>, k: nat)
    requires Run(id, events).holder.None? && k in Run(id, events).phase
    ensures var s := Run(id, events);
            && NoDuplicates(s.svc.queue)
            && (InMap(id, s, k) || InHand(s, k) || k in s.svc.queue || Is(s, k, Cancelled) || s.phase[k].Overwritten?)
            && !(InMap(id, s, k) && InHand(s, k)) && !(InMap(id, s, k) && k in s.svc.queue)
            && !(InHand(s, k) && k in s.svc.queue)
            && (Is(s, k, Cancelled) || s.phase[k].Overwritten? ==>
                  !InMap(id, s, k) && !InHand(s, k) && k !in s.svc.queue)
            && (DistinctIDs(id, s) ==> !s.phase[k].Overwritten?)
  {
    var s := Run(id, events);
    RunInv(id, events);
    assert Near(id, s, k);
    if g :| TimerIs(s, g, Sending(k)) {
      assert CallOk(id, s, g);
    }
  }

  /** Main result: with distinct job IDs a timer goroutine that gets the mutex finds its
      own entry unless that entry was cancelled: AfterFunc and the map store are one
      critical section, so it never comes too early. */
  lemma FiredTimerFinds(id: nat -> string, events: seq<Event>, k: nat)
    requires DistinctIDs(id, Run(id, events)) && Run(id, events).holder.None?
    requires TimerIs(Run(id, events), k, Fired)
    ensures InMap(id, Run(id, events), k) <==> !Is(Run(id, events), k, Cancelled)
  {
    RunInv(id, events);
    assert Near(id, Run(id, events), k);
  }

  /** Without the assumption on IDs the only other fate is to be overwritten, and then
      another call carries the same ID. */
  lemma OnlyTwinsAreLost(id: nat -> string, events: seq<Event>, k: nat)
    requires k in Run(id, events).phase && Run(id, events).holder.None?
    ensures var s := Run(id, events);
            || InMap(id, s, k) || InHand(s, k) || k in s.svc.queue || Is(s, k, Cancelled)
            || (s.phase[k].Overwritten? && !DistinctIDs(id, s))
  {
    RunInv(id, events);
    assert Near(id, Run(id, events), k);
  }

  /** The map files call k under this ID. */
  predicate Holds(s: State, jobID: string, k: nat) { jobID in s.svc.entry && s.svc.entry[jobID] == k }

  /** Main result: the one step that loses a job is the map store of another call, and
      it does so exactly when the map still has an entry under that call's ID. */
  lemma OverwrittenExactlyWhen(id: nat -> string, events: seq<Event>, e: Event, k: nat, via: nat)
    requires !Is(Run(id, events), k, Overwritten(via))
    ensures var s, t := Run(id, events), Run(id, events + [e]);
            Is(t, k, Overwritten(via)) <==> e == StoreEntry(via) && Is(s, via, Storing) && Holds(s, id(via), k)
  {
    RunInv(id, events);
    assert (events + [e])[..|events|] == events;
    var s := Run(id, events);
    if e.StoreEntry? {
      assert Near(id, s, e.k);
    }
  }

  /** Neither in the map, nor in hand, nor queued, nor cancelled. */
  ghost predicate Lost(id: nat -> string, s: State, k: nat)
  {
    k in s.phase && !InMap(id, s, k) && !InHand(s, k) && k !in s.svc.queue && !Is(s, k, Cancelled)
  }

  ghost predicate NothingIsLost(id: nat -> string)
  {
    forall events, k :: Run(id, events).holder.None? ==> !Lost(id, Run(id, events), k)
  }

  ghost predicate NothingIsOverwritten(id: nat -> string)
  {
    forall events, k :: k in Run(id, events).phase ==> !Run(id, events).phase[k].Overwritten?
  }

  ghost predicate AllDistinct(id: nat -> string)
  {
    forall k, l :: k != l ==> id(k) != id(l)
  }

  /** One call of ScheduleJob, from the lock to the unlock. */
  function Scheduled(k: nat): seq<Event> { [CallSchedule(k, false), ArmTimer(k), StoreEntry(k)] }

  lemma AppendThree(events: seq<Event>, a: Event, b: Event, c: Event)
    ensures events + [a] + [b] + [c] == events + [a, b, c]
  {}

  lemma RunOne(id: nat -> string, events: seq<Event>, e: Event)
    ensures Run(id, events + [e]) == Step(id, Run(id, events), e)
  {
    assert (events + [e])[..|events|] == events;
  }

  /** A call made while the mutex is free ends with its own entry in the map, and its
      predecessor under the same ID is overwritten. */
  lemma ScheduleStores(id: nat -> string, events: seq<Event>, k: nat)
    requires Run(id, events).holder.None? && k !in Run(id, events).phase
    ensures var s, t := Run(id, events), Run(id, events + Scheduled(k));
            && t.holder.None? && InMap(id, t, k) && t.phase.Keys == s.phase.Keys + {k}
            && t.svc.queue == s.svc.queue
            && (id(k) in s.svc.entry ==> Is(t, s.svc.entry[id(k)], Overwritten(k)))
  {
    var a, b, c := CallSchedule(k, false), ArmTimer(k), StoreEntry(k);
    AppendThree(events, a, b, c);
    RunOne(id, events, a);
    RunOne(id, events + [a], b);
    RunOne(id, events + [a] + [b], c);
    RunInv(id, events);
    assert EntryOk(id, Run(id, events), id(k));
  }

  lemma DistinctNotOverwritten(id: nat -> string, events: seq<Event>, k: nat)
    requires AllDistinct(id) && k in Run(id, events).phase
    ensures !Run(id, events).phase[k].Overwritten?
  {
    RunInv(id, events);
    assert CallOk(id, Run(id, events), k);
  }

  /** An overwritten job is lost for good. */
  lemma OverwrittenIsLost(id: nat -> string, events: seq<Event>, k: nat)
    requires k in Run(id, events).phase && Run(id, events).phase[k].Overwritten?
    ensures Lost(id, Run(id, events), k)
  {
    var s := Run(id, events);
    RunInv(id, events);
    assert CallOk(id, s, k) && EntryOk(id, s, id(k));
    forall g ensures !TimerIs(s, g, Sending(k)) {
      assert CallOk(id, s, g);
    }
  }

  /** Any two calls with the same ID, made one after the other: the first job is lost. */
  lemma TwinIsLost(id: nat -> string, k: nat, l: nat)
    requires k != l && id(k) == id(l)
    ensures var s := Run(id, Scheduled(k) + Scheduled(l));
            s.holder.None? && Is(s, k, Overwritten(l)) && Lost(id, s, k)
  {
    assert [] + Scheduled(k) == Scheduled(k);
    ScheduleStores(id, [], k);
    ScheduleStores(id, Scheduled(k), l);
    OverwrittenIsLost(id, Scheduled(k) + Scheduled(l), k);
  }

  /** Main result: no run loses a job exactly when no two calls carry the same ID. */
  lemma NothingLostIffDistinct(id: nat -> string)
    ensures NothingIsLost(id) <==> AllDistinct(id)
    ensures NothingIsOverwritten(id) <==> AllDistinct(id)
  {
    if AllDistinct(id) {
      forall events, k | k in Run(id, events).phase ensures !Run(id, events).phase[k].Overwritten? {
        DistinctNotOverwritten(id, events, k);
      }
      forall events, k | Run(id, events).holder.None? ensures !Lost(id, Run(id, events), k) {
        if k in Run(id, events).phase {
          OnlyTwinsAreLost(id, events, k);
        }
      }
    } else {
      var k, l :| k != l && id(k) == id(l);
      TwinIsLost(id, k, l);
    }
  }

  /** Main result: a timer is stopped only for a cancelled job, and the timer of a
      cancelled job never fires afterwards; it is stopped or had fired before. */
  lemma StoppedExactlyForCancelled(id: nat -> string, events: seq<Event>, k: nat)
    ensures var s := Run(id, events);
            && (TimerIs(s, k, Stopped) ==> Is(s, k, Cancelled))
            && (Is(s, k, Cancelled) ==> !TimerIs(s, k, Armed) && Step(id, s, Fire(k)) == s)
  {
    RunInv(id, events);
    assert CallOk(id, Run(id, events), k);
  }

  predicate Final(p: Phase) { p.Cancelled? || p.Enqueued? || p.Overwritten? }

  lemma StepKeepsFinal(id: nat -> string, s: State, e: Event, k: nat)
    requires Inv(id, s) && k in s.phase && Final(s.phase[k])
    ensures var t := Step(id, s, e); k in t.phase && t.phase[k] == s.phase[k]
  {
    assert Near(id, s, k);
    match e
    case CallCancel(jobID) =>
      assert EntryOk(id, s, jobID);
    case CallStop =>
    case _ =>
      assert Near(id, s, e.k);
  }

  /** Main result: a cancel that found the entry is final; nothing that happens later
      puts the job in the queue. The same holds of the other final phases. */
  lemma {:induction false} FinalStaysFinal(id: nat -> string, events: seq<Event>, more: seq<Event>, k: nat)
    requires k in Run(id, events).phase && Final(Run(id, events).phase[k])
    ensures Is(Run(id, events + more), k, Run(id, events).phase[k])
    ensures k in Run(id, events + more).svc.queue <==> k in Run(id, events).svc.queue
  {
    QueueTellsPhase(id, events, k);
    if more == [] {
      assert events + more == events;
    } else {
      var less, last := more[..|more| - 1], more[|more| - 1];
      FinalStaysFinal(id, events, less, k);
      RunInv(id, events + less);
      StepKeepsFinal(id, Run(id, events + less), last, k);
      RunOne(id, events + less, last);
      assert events + less + [last] == events + more;
      QueueTellsPhase(id, events + more, k);
    }
  }

  lemma QueueTellsPhase(id: nat -> string, events: seq<Event>, k: nat)
    requires k in Run(id, events).phase
    ensures k in Run(id, events).svc.queue <==> Run(id, events).phase[k].Enqueued?
  {
    RunInv(id, events);
    assert CallOk(id, Run(id, events), k);
  }

  /** A pending job is never stranded: whenever the mutex is free its own timer can
      still bring it to the queue. */
  lemma PendingIsDelivered(id: nat -> string, events: seq<Event>, k: nat)
    requires Run(id, events).holder.None? && InMap(id, Run(id, events), k)
    ensures k in Step(id, Step(id, Step(id, Run(id, events), Fire(k)), Execute(k)), SendJob(k)).svc.queue
  {
    RunInv(id, events);
    assert EntryOk(id, Run(id, events), id(k));
    assert Near(id, Run(id, events), k);
  }
}
