/** The condition variable of the job queue (pkg/types/priority_queue.go), as a state
    machine over any number of producing and consuming goroutines. Each line that
    takes the mutex, pushes, signals, tests the length, waits, pops or unlocks is a
    step of its own, so every interleaving of goroutines is a sequence of events. */
module QueueWakeups {
  import opened Options
  import opened PriorityQueues

  datatype Pc =
    | Idle
    | Pushing(entry: Entry)   // Enqueue holds the mutex, before heap.Push
    | Signalling              // pushed, before cond.Signal
    | Checking(blocks: bool)  // at the length test of Dequeue or TryDequeue
    | Asleep                  // inside cond.Wait, mutex released
    | Woken                   // signalled, wants the mutex back
    | Popping                 // the test found a job, before heap.Pop
    | Leaving                 // before the deferred unlock

  datatype State = State(
    pc: map<nat, Pc>,
    holder: Option<nat>,
    queue: multiset<Entry>,
    produced: multiset<Entry>,
    delivered: multiset<Entry>,
    panicked: bool)           // heap.Pop ran on an empty heap

  const Init := State(map[], None, multiset{}, multiset{}, multiset{}, false)

  datatype Event =
    | CallEnqueue(t: nat, entry: Entry)
    | CallDequeue(t: nat)
    | CallTryDequeue(t: nat)
    | Reacquire(t: nat)                         // the end of cond.Wait
    | Go(t: nat, wakes: nat, chosen: Entry)     // the mutex holder moves on

  function At(s: State, t: nat): Pc { if t in s.pc then s.pc[t] else Idle }

  function SetPc(s: State, t: nat, p: Pc): State { s.(pc := s.pc[t := p]) }

  function Lock(s: State, t: nat, p: Pc): State { SetPc(s, t, p).(holder := Some(t)) }

  function Unlock(s: State, t: nat, p: Pc): State { SetPc(s, t, p).(holder := None) }

  /** An event that cannot happen leaves the state alone. */
  ghost function Step(s: State, e: Event): State
  {
    match e
    case CallEnqueue(t, entry) =>
      if At(s, t) == Idle && s.holder.None? then Lock(s, t, Pushing(entry)) else s
    case CallDequeue(t) =>
      if At(s, t) == Idle && s.holder.None? then Lock(s, t, Checking(true)) else s
    case CallTryDequeue(t) =>
      if At(s, t) == Idle && s.holder.None? then Lock(s, t, Checking(false)) else s
    case Reacquire(t) =>
      if At(s, t) == Woken && s.holder.None? then Lock(s, t, Checking(true)) else s
    case Go(t, wakes, chosen) =>
      if s.holder == Some(t) then Move(s, t, wakes, chosen) else s
  }

  ghost function Move(s: State, t: nat, wakes: nat, chosen: Entry): State
  {
    match At(s, t)
    case Pushing(entry) =>
      SetPc(s.(queue := s.queue + multiset{entry}, produced := s.produced + multiset{entry}), t, Signalling)
    case Signalling =>
      if At(s, wakes) == Asleep then SetPc(SetPc(s, wakes, Woken), t, Leaving)
      else if SomeAsleep(s) then s  // Signal picks a sleeper while there is one
      else SetPc(s, t, Leaving)
    case Checking(blocks) =>
      if s.queue != multiset{} then SetPc(s, t, Popping)
      else if blocks then Unlock(s, t, Asleep)
      else SetPc(s, t, Leaving)
    case Popping =>
      if s.queue == multiset{} then s.(panicked := true)
      else if Greatest(s.queue, chosen) then
        SetPc(s.(queue := s.queue - multiset{chosen}, delivered := s.delivered + multiset{chosen}), t, Leaving)
      else s
    case Leaving => Unlock(s, t, Idle)
    case _ => s
  }

  ghost function Run(events: seq<Event>): State
  {
    if events == [] then Init else Step(Run(events[..|events| - 1]), events[|events| - 1])
  }

  ghost predicate SomeAsleep(s: State) { exists t :: t in s.pc && s.pc[t] == Asleep }

  ghost function WokenSet(s: State): set<nat> { set t | t in s.pc && s.pc[t] == Woken }

  predicate InMutex(p: Pc) { !p.Idle? && !p.Asleep? && !p.Woken? }

  /** The job that the mutex holder is about to announce or to take. */
  function Slack(s: State): nat
  {
    if s.holder.Some? && (At(s, s.holder.value).Signalling? || At(s, s.holder.value).Checking?
                          || At(s, s.holder.value).Popping?) then 1 else 0
  }

  ghost predicate MutexHeld(s: State)
  {
    forall t :: t in s.pc ==> (InMutex(s.pc[t]) <==> s.holder == Some(t))
  }

  ghost predicate Covered(s: State)
  {
    SomeAsleep(s) ==> |s.queue| <= |WokenSet(s)| + Slack(s)
  }

  ghost predicate PopsFind(s: State)
  {
    !s.panicked && forall t :: t in s.pc && s.pc[t].Popping? ==> s.queue != multiset{}
  }

  ghost predicate Conserved(s: State) { s.produced == s.queue + s.delivered }

  ghost predicate Inv(s: State)
  {
    && MutexHeld(s) && Covered(s) && PopsFind(s) && Conserved(s)
    && (s.holder.Some? ==> s.holder.value in s.pc)
  }

  /** Changing one goroutine from p to q changes the woken set as expected. */
  lemma WokenAfter(s: State, t: nat, q: Pc)
    ensures WokenSet(SetPc(s, t, q)) == if q == Woken then WokenSet(s) + {t} else WokenSet(s) - {t}
  {}

  lemma EmptySize(m: multiset<Entry>)
    ensures |m| == 0 <==> m == multiset{}
  {}

  lemma SignalKeepsInv(s: State, t: nat, wakes: nat, chosen: Entry)
    requires Inv(s) && s.holder == Some(t) && At(s, t).Signalling?
    ensures Inv(Move(s, t, wakes, chosen))
  {
    if At(s, wakes) == Asleep {
      WakeKeepsInv(s, t, wakes, chosen);
    } else {
      WokenAfter(s, t, Leaving);
    }
  }

  lemma WakeKeepsInv(s: State, t: nat, wakes: nat, chosen: Entry)
    requires Inv(s) && s.holder == Some(t) && At(s, t).Signalling? && At(s, wakes) == Asleep
    ensures Inv(Move(s, t, wakes, chosen))
  {
    WokenAfter(s, wakes, Woken);
    WokenAfter(SetPc(s, wakes, Woken), t, Leaving);
  }

  lemma PushKeepsInv(s: State, t: nat, wakes: nat, chosen: Entry)
    requires Inv(s) && s.holder == Some(t) && At(s, t).Pushing?
    ensures Inv(Move(s, t, wakes, chosen))
  {
    WokenAfter(s, t, Signalling);
  }

  lemma CheckKeepsInv(s: State, t: nat, wakes: nat, chosen: Entry)
    requires Inv(s) && s.holder == Some(t) && At(s, t).Checking?
    ensures Inv(Move(s, t, wakes, chosen))
  {
    EmptySize(s.queue);
    WokenAfter(s, t, if s.queue != multiset{} then Popping else if At(s, t).blocks then Asleep else Leaving);
  }

  lemma PopKeepsInv(s: State, t: nat, wakes: nat, chosen: Entry)
    requires Inv(s) && s.holder == Some(t) && At(s, t).Popping?
    ensures Inv(Move(s, t, wakes, chosen))
  {
    WokenAfter(s, t, Leaving);
  }

  lemma LeaveKeepsInv(s: State, t: nat, wakes: nat, chosen: Entry)
    requires Inv(s) && s.holder == Some(t) && At(s, t).Leaving?
    ensures Inv(Move(s, t, wakes, chosen))
  {
    WokenAfter(s, t, Idle);
  }

  lemma LockKeepsInv(s: State, t: nat, p: Pc)
    requires Inv(s) && s.holder.None? && (p.Pushing? || p.Checking?)
    requires At(s, t) == Idle || (At(s, t) == Woken && p.Checking?)
    ensures Inv(Lock(s, t, p))
  {
    WokenAfter(s, t, p);
  }

  lemma StepKeepsInv(s: State, e: Event)
    requires Inv(s)
    ensures Inv(Step(s, e))
  {
    if e.Go? {
      if s.holder == Some(e.t) {
        match At(s, e.t)
        case Pushing(_) => PushKeepsInv(s, e.t, e.wakes, e.chosen);
        case Signalling => SignalKeepsInv(s, e.t, e.wakes, e.chosen);
        case Checking(_) => CheckKeepsInv(s, e.t, e.wakes, e.chosen);
        case Popping => PopKeepsInv(s, e.t, e.wakes, e.chosen);
        case Leaving => LeaveKeepsInv(s, e.t, e.wakes, e.chosen);
        case _ =>
      }
    } else if s.holder.None? {
      var p := match e
        case CallEnqueue(_, entry) => Pushing(entry)
        case CallTryDequeue(_) => Checking(false)
        case _ => Checking(true);
      if At(s, e.t) == (if e.Reacquire? then Woken else Idle) {
        LockKeepsInv(s, e.t, p);
      }
    }
  }

  lemma {:induction false} RunInv(events: seq<Event>)
    ensures Inv(Run(events))
  {
    if events != [] {
      RunInv(events[..|events| - 1]);
      StepKeepsInv(Run(events[..|events| - 1]), events[|events| - 1]);
    }
  }

  /** Main result: in every reachable state no pop ran on an empty heap, every job
      produced is either queued or delivered, and, while some consumer still sleeps,
      there is a woken consumer for each queued job, but for the one job that the holder
      of the mutex is about to announce or to take; when the mutex is free, for each. */
  lemma NoLostWakeup(events: seq<Event>)
    ensures var s := Run(events);
            && !s.panicked
            && s.produced == s.queue + s.delivered
            && (SomeAsleep(s) ==> |s.queue| <= |WokenSet(s)| + Slack(s))
            && (s.holder.None? ==> Slack(s) == 0)
  {
    RunInv(events);
  }

  /** A queued job is never stranded: whenever the mutex is free, a job is queued and a
      consumer sleeps, some woken consumer can deliver a job of greatest priority
      in three steps of its own. */
  lemma WokenConsumerDelivers(events: seq<Event>) returns (t: nat, chosen: Entry)
    requires Run(events).holder.None? && SomeAsleep(Run(events)) && Run(events).queue != multiset{}
    ensures At(Run(events), t) == Woken && Greatest(Run(events).queue, chosen)
    ensures var later := Step(Step(Step(Run(events), Reacquire(t)), Go(t, t, chosen)), Go(t, t, chosen));
            later.delivered == Run(events).delivered + multiset{chosen}
  {
    var s := Run(events);
    RunInv(events);
    EmptySize(s.queue);
    assert WokenSet(s) != {};
    t :| t in WokenSet(s);
    chosen := SomeGreatest(s.queue);
  }

  // -------------------------------------------------------- what each call comes to

  /** While one goroutine has the mutex, no event of another changes anything. */
  lemma MutexExcludes(s: State, t: nat, e: Event)
    requires MutexHeld(s) && s.holder == Some(t) && t in s.pc && e.t != t
    ensures Step(s, e) == s
  {}

  /** Enqueue up to its signal. */
  lemma PushQueues(s: State, t: nat, entry: Entry)
    requires s.holder.None? && At(s, t) == Idle
    ensures var u := Step(Step(s, CallEnqueue(t, entry)), Go(t, t, entry));
            && At(u, t) == Signalling && u.holder == Some(t) && u.delivered == s.delivered
            && u.queue == s.queue + multiset{entry} && u.produced == s.produced + multiset{entry}
            && (forall r: nat :: r != t ==> At(u, r) == At(s, r))
            && (SomeAsleep(u) <==> SomeAsleep(s))
  {
    var u := Step(Step(s, CallEnqueue(t, entry)), Go(t, t, entry));
    if r :| r in u.pc && u.pc[r] == Asleep {
      assert r in s.pc && s.pc[r] == Asleep;
    }
    if r :| r in s.pc && s.pc[r] == Asleep {
      assert r in u.pc && u.pc[r] == Asleep;
    }
  }

  /** Enqueue from its signal on: one sleeper is woken if there is any. */
  lemma SignalReturns(s: State, t: nat, entry: Entry, wakes: nat)
    requires s.holder == Some(t) && At(s, t) == Signalling && (SomeAsleep(s) ==> At(s, wakes) == Asleep)
    ensures var u := Step(Step(s, Go(t, wakes, entry)), Go(t, t, entry));
            && At(u, t) == Idle && u.holder.None?
            && u.queue == s.queue && u.produced == s.produced && u.delivered == s.delivered
            && (SomeAsleep(s) ==> At(u, wakes) == Woken)
            && forall r: nat :: r != t && (SomeAsleep(s) ==> r != wakes) ==> At(u, r) == At(s, r)
  {}

  /** Enqueue: the job is queued, one sleeper is woken if there is any, and the caller
      and the mutex are free again. */
  lemma EnqueueReturns(s: State, t: nat, entry: Entry, wakes: nat)
    requires s.holder.None? && At(s, t) == Idle && (SomeAsleep(s) ==> At(s, wakes) == Asleep)
    ensures var pushed := Step(Step(s, CallEnqueue(t, entry)), Go(t, t, entry));
            var u := Step(Step(pushed, Go(t, wakes, entry)), Go(t, t, entry));
            && At(u, t) == Idle && u.holder.None? && u.delivered == s.delivered
            && u.queue == s.queue + multiset{entry} && u.produced == s.produced + multiset{entry}
            && (SomeAsleep(s) ==> At(u, wakes) == Woken)
            && forall r: nat :: r != t && (SomeAsleep(s) ==> r != wakes) ==> At(u, r) == At(s, r)
  {
    PushQueues(s, t, entry);
    SignalReturns(Step(Step(s, CallEnqueue(t, entry)), Go(t, t, entry)), t, entry, wakes);
  }

  /** TryDequeue never sleeps: on an empty queue it returns without a job. */
  lemma TryDequeueOnEmpty(s: State, t: nat, chosen: Entry)
    requires s.holder.None? && At(s, t) == Idle && s.queue == multiset{}
    ensures var u := Step(Step(Step(s, CallTryDequeue(t)), Go(t, t, chosen)), Go(t, t, chosen));
            At(u, t) == Idle && u.holder.None? && u.queue == s.queue && u.delivered == s.delivered
  {}

  lemma TestFinds(s: State, t: nat, chosen: Entry)
    requires s.holder.None? && At(s, t) == Idle && s.queue != multiset{}
    ensures var u := Step(Step(s, CallTryDequeue(t)), Go(t, t, chosen));
            At(u, t) == Popping && u.holder == Some(t) && u.queue == s.queue && u.delivered == s.delivered
  {}

  lemma PopReturns(s: State, t: nat, chosen: Entry)
    requires s.holder == Some(t) && At(s, t) == Popping && Greatest(s.queue, chosen)
    ensures var u := Step(Step(s, Go(t, t, chosen)), Go(t, t, chosen));
            && At(u, t) == Idle && u.holder.None?
            && u.queue == s.queue - multiset{chosen} && u.delivered == s.delivered + multiset{chosen}
  {}

  /** On any other queue it returns with a job of greatest priority. */
  lemma TryDequeueTakes(s: State, t: nat, chosen: Entry)
    requires s.holder.None? && At(s, t) == Idle && Greatest(s.queue, chosen)
    ensures var b := Step(Step(Step(s, CallTryDequeue(t)), Go(t, t, chosen)), Go(t, t, chosen));
            var u := Step(b, Go(t, t, chosen));
            && At(u, t) == Idle && u.holder.None?
            && u.queue == s.queue - multiset{chosen} && u.delivered == s.delivered + multiset{chosen}
  {
    TestFinds(s, t, chosen);
    PopReturns(Step(Step(s, CallTryDequeue(t)), Go(t, t, chosen)), t, chosen);
  }

  /** Dequeue sleeps, and lets go of the mutex, exactly if the queue is empty. */
  lemma DequeueSleepsExactlyWhen(s: State, t: nat, chosen: Entry)
    requires s.holder.None? && At(s, t) == Idle
    ensures var u := Step(Step(s, CallDequeue(t)), Go(t, t, chosen));
            && (s.queue == multiset{} <==> At(u, t) == Asleep)
            && (s.queue == multiset{} <==> u.holder.None?)
            && u.queue == s.queue && u.delivered == s.delivered
  {}

  lemma SomeGreatest(bag: multiset<Entry>) returns (e: Entry)
    requires bag != multiset{}
    ensures Greatest(bag, e)
    decreases bag
  {
    e :| e in bag;
    var first, rest := e, bag - multiset{e};
    if rest != multiset{} {
      var best := SomeGreatest(rest);
      assert forall x :: x in bag ==> x in rest || x == first;
      if best.priority > first.priority {
        e := best;
      }
    } else {
      assert forall x :: x in bag ==> x in rest || x == first;
    }
  }
}
