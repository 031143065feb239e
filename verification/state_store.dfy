/** Checkpoint files (internal/application/services/state_service.go): written to a
    temporary file, then renamed. JSON is a faithful encoding, so a completely written
    file stands for its snapshot; a file cut short is Torn and cannot be unmarshalled. */
module StateStore {
  import opened Options
  import opened JobStates

  datatype File = Whole(state: Snapshot) | Torn

  /** state.json and state.json.tmp of every job. */
  datatype Disk = Disk(final: map<string, File>, temp: map<string, File>)

  datatype Fault = NoFault | WriteFails | RenameFails

  function Load(d: Disk, job: string): Option<Snapshot>
  {
    if job in d.final && d.final[job].Whole? then Some(d.final[job].state) else None
  }

  function WriteTemp(d: Disk, job: string, f: File): Disk { d.(temp := d.temp[job := f]) }

  /** Rename moves the temporary file over the final one in one step. */
  function Rename(d: Disk, job: string): Disk
    requires job in d.temp
  {
    Disk(d.final[job := d.temp[job]], d.temp - {job})
  }

  class StateService {
    var disk: Disk

    constructor ()
      ensures disk == Disk(map[], map[])
    {
      disk := Disk(map[], map[]);
    }

    method LoadState(job: string) returns (r: Option<Snapshot>)
      ensures r == Load(disk, job)
    {
      if job !in disk.final {
        return None;
      }
      match disk.final[job]
      case Torn => return None;
      case Whole(state) => return Some(state);
    }

    /** Afterwards the job loads as the new state on success and as before on failure;
        no other job is affected. */
    method SaveState(job: string, state: Snapshot, fault: Fault) returns (ok: bool)
      modifies this
      ensures ok <==> fault.NoFault?
      ensures Load(disk, job) == if ok then Some(state) else Load(old(disk), job)
      ensures forall other :: other != job ==> Load(disk, other) == Load(old(disk), other)
      ensures ok ==> job !in disk.temp
    {
      if fault.WriteFails? {
        disk := WriteTemp(disk, job, Torn);
        return false;
      }
      disk := WriteTemp(disk, job, Whole(state));
      if fault.RenameFails? {
        return false;
      }
      disk := Rename(disk, job);
      return true;
    }

    method UpdateHeartbeat(job: string, now: int, fault: Fault) returns (ok: bool)
      modifies this
      ensures ok <==> Load(old(disk), job).Some? && fault.NoFault?
      ensures ok ==> Load(disk, job).Some? && Load(disk, job).value.heartbeat == now
      ensures ok ==> var was, next := Load(old(disk), job).value, Load(disk, job).value;
                     && next.status == was.status && next.steps == was.steps
                     && next.complete == was.complete && next.failed == was.failed
      ensures !ok ==> Load(disk, job) == Load(old(disk), job)
      ensures forall other :: other != job ==> Load(disk, other) == Load(old(disk), other)
    {
      var loaded := LoadState(job);
      if loaded.None? {
        return false;
      }
      var state := new JobState(loaded.value);
      state.UpdateHeartbeat(now);
      ok := SaveState(job, state.View(), fault);
    }
  }

  // ------------------------------------------------------- saves cut short by crashes

  /** Where the goroutine that holds the service's mutex is inside SaveState. */
  datatype Saver = NoSaver | Opened(job: string, state: Snapshot) | Written(job: string, state: Snapshot)

  /** `saved` lists, job by job, the states whose rename has happened. */
  datatype State = State(disk: Disk, saver: Saver, saved: map<string, seq<Snapshot>>)

  const Init := State(Disk(map[], map[]), NoSaver, map[])

  datatype Event =
    | Open(job: string, state: Snapshot)  // takes the mutex and truncates the temporary file
    | FinishWrite
    | FinishRename
    | SaveError                           // WriteFile or Rename fails; the mutex is released
    | Crash                               // at any point; the files stay as they are

  function History(s: State, job: string): seq<Snapshot> { if job in s.saved then s.saved[job] else [] }

  function Step(s: State, e: Event): State
  {
    match e
    case Open(job, state) =>
      if s.saver.NoSaver? then s.(disk := WriteTemp(s.disk, job, Torn), saver := Opened(job, state)) else s
    case FinishWrite =>
      if s.saver.Opened? then
        s.(disk := WriteTemp(s.disk, s.saver.job, Whole(s.saver.state)), saver := Written(s.saver.job, s.saver.state))
      else s
    case FinishRename =>
      if s.saver.Written? && s.saver.job in s.disk.temp then
        State(Rename(s.disk, s.saver.job), NoSaver,
              s.saved[s.saver.job := History(s, s.saver.job) + [s.saver.state]])
      else s
    case SaveError => s.(saver := NoSaver)
    case Crash => s.(saver := NoSaver)
  }

  function Run(events: seq<Event>): State
  {
    if events == [] then Init else Step(Run(events[..|events| - 1]), events[|events| - 1])
  }

  /** The state a job was last saved as. */
  function LastSaved(s: State, job: string): Option<Snapshot>
  {
    if History(s, job) == [] then None else Some(History(s, job)[|History(s, job)| - 1])
  }

  ghost predicate Inv(s: State)
  {
    && (s.saver.Written? ==> s.saver.job in s.disk.temp && s.disk.temp[s.saver.job] == Whole(s.saver.state))
    && (forall job :: job in s.disk.final ==> s.disk.final[job].Whole?)
    && (forall job :: Load(s.disk, job) == LastSaved(s, job))
  }

  lemma StepKeepsInv(s: State, e: Event)
    requires Inv(s)
    ensures Inv(Step(s, e))
  {
    var t := Step(s, e);
    forall job ensures Load(t.disk, job) == LastSaved(t, job) {
      assert Load(s.disk, job) == LastSaved(s, job);
    }
  }

  lemma {:induction false} RunInv(events: seq<Event>)
    ensures Inv(Run(events))
  {
    if events != [] {
      RunInv(events[..|events| - 1]);
      StepKeepsInv(Run(events[..|events| - 1]), events[|events| - 1]);
    }
  }

  /** Main result: for any interleaving of saves of any jobs, failures and crashes at any
      point, LoadState returns the state whose rename came last, never a torn one. */
  lemma LoadIsLastSaved(events: seq<Event>, job: string)
    ensures Load(Run(events).disk, job) == LastSaved(Run(events), job)
    ensures job in Run(events).disk.final ==> Run(events).disk.final[job].Whole?
  {
    RunInv(events);
  }

  /** One event changes what a job loads as only if it is the rename of a save of that
      job, and then to the state being saved. */
  lemma OldOrNew(events: seq<Event>, e: Event, job: string)
    ensures var s, t := Run(events), Run(events + [e]);
            || Load(t.disk, job) == Load(s.disk, job)
            || (e == FinishRename && s.saver.Written? && s.saver.job == job
                && Load(t.disk, job) == Some(s.saver.state))
  {
    RunInv(events);
    assert (events + [e])[..|events|] == events;
  }
}
