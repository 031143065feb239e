/** The checkpoint of a job (pkg/types/state.go). */
module JobStates {
  import opened Options

  datatype Step = HashComputation | Deduplication | Analysis | MasterPlaylist | Cleanup | Finalization

  /** The order in which a run completes its steps. */
  const PIPELINE: seq<Step> := [HashComputation, Deduplication, Analysis, MasterPlaylist, Cleanup, Finalization]

  /** The values that the program gives the status field. */
  datatype Status = Processing | Completed | PartlyCompleted | SizeExceeded

  /** As written to state.json. */
  function StatusText(s: Status): string
  {
    match s
    case Processing => "processing"
    case Completed => "completed"
    case PartlyCompleted => "partial_success"
    case SizeExceeded => "failed"
  }

  /** The fields of the state that any code reads back. */
  datatype Snapshot = Snapshot(status: Status, steps: seq<Step>, complete: seq<string>,
                               failed: seq<string>, heartbeat: int)

  /** What CreateState writes. */
  function Fresh(now: int): (s: Snapshot)
    ensures s.status == Processing && s.heartbeat == now
    ensures s.steps == [] && s.complete == [] && s.failed == []
  {
    Snapshot(Processing, [], [], [], now)
  }

  function MarkStep(s: Snapshot, step: Step): Snapshot
  {
    if step in s.steps then s else s.(steps := s.steps + [step])
  }

  function MarkComplete(s: Snapshot, quality: string): Snapshot
  {
    if quality in s.complete then s else s.(complete := s.complete + [quality])
  }

  function MarkFailed(s: Snapshot, quality: string): Snapshot { s.(failed := s.failed + [quality]) }

  /** All but the heartbeat: what a checkpoint says about the job. */
  predicate SameListings(a: Snapshot, b: Snapshot)
  {
    a.status == b.status && a.steps == b.steps && a.complete == b.complete && a.failed == b.failed
  }

  function Beat(s: Snapshot, now: int): Snapshot { s.(heartbeat := now) }

  class JobState {
    var status: Status
    var stepsCompleted: seq<Step>
    var qualitiesComplete: seq<string>
    var qualitiesFailed: seq<string>
    var lastHeartbeat: int

    function View(): (v: Snapshot)
      reads this
      ensures v.status == status && v.steps == stepsCompleted && v.heartbeat == lastHeartbeat
      ensures v.complete == qualitiesComplete && v.failed == qualitiesFailed
    {
      Snapshot(status, stepsCompleted, qualitiesComplete, qualitiesFailed, lastHeartbeat)
    }

    /** Unmarshals a checkpoint. */
    constructor (s: Snapshot)
      ensures View() == s
    {
      status, stepsCompleted, qualitiesComplete, qualitiesFailed, lastHeartbeat :=
        s.status, s.steps, s.complete, s.failed, s.heartbeat;
    }

    method IsStepCompleted(step: Step) returns (r: bool)
      ensures r <==> step in stepsCompleted
    {
      for i := 0 to |stepsCompleted|
        invariant step !in stepsCompleted[..i]
      {
        if stepsCompleted[i] == step {
          return true;
        }
      }
      return false;
    }

    method IsQualityCompleted(quality: string) returns (r: bool)
      ensures r <==> quality in qualitiesComplete
    {
      for i := 0 to |qualitiesComplete|
        invariant quality !in qualitiesComplete[..i]
      {
        if qualitiesComplete[i] == quality {
          return true;
        }
      }
      return false;
    }

    method MarkStepCompleted(step: Step)
      modifies this
      ensures View() == MarkStep(old(View()), step)
      ensures stepsCompleted == if step in old(stepsCompleted) then old(stepsCompleted)
                                else old(stepsCompleted) + [step]
      ensures qualitiesComplete == old(qualitiesComplete) && qualitiesFailed == old(qualitiesFailed)
      ensures status == old(status) && lastHeartbeat == old(lastHeartbeat)
    {
      var marked := IsStepCompleted(step);
      if !marked {
        stepsCompleted := stepsCompleted + [step];
      }
    }

    method MarkQualityCompleted(quality: string)
      modifies this
      ensures View() == MarkComplete(old(View()), quality)
      ensures qualitiesComplete == if quality in old(qualitiesComplete) then old(qualitiesComplete)
                                   else old(qualitiesComplete) + [quality]
      ensures stepsCompleted == old(stepsCompleted) && qualitiesFailed == old(qualitiesFailed)
      ensures status == old(status) && lastHeartbeat == old(lastHeartbeat)
    {
      var marked := IsQualityCompleted(quality);
      if !marked {
        qualitiesComplete := qualitiesComplete + [quality];
      }
    }

    method MarkQualityFailed(quality: string)
      modifies this
      ensures View() == MarkFailed(old(View()), quality)
      ensures qualitiesFailed == old(qualitiesFailed) + [quality]
      ensures stepsCompleted == old(stepsCompleted) && qualitiesComplete == old(qualitiesComplete)
      ensures status == old(status) && lastHeartbeat == old(lastHeartbeat)
    {
      qualitiesFailed := qualitiesFailed + [quality];
    }

    method UpdateHeartbeat(now: int)
      modifies this
      ensures View() == Beat(old(View()), now)
      ensures lastHeartbeat == now && status == old(status) && stepsCompleted == old(stepsCompleted)
      ensures qualitiesComplete == old(qualitiesComplete) && qualitiesFailed == old(qualitiesFailed)
    {
      lastHeartbeat := now;
    }
  }
}
