/** What the scheduler promises over whole runs. */
module SchedulerTheorems {
  import opened Common
  import opened Sums
  import opened SchedulerModel
  import opened SchedulerSteps
  import opened SchedulerPeek
  import opened SchedulerInvariant
  import opened SchedulerRuns
  import opened SchedulerFairness

  // ---------------------------------------------------------------------------
  // Quota and live tasks

  /** In every state of every run, whatever allocations failed: reserved bytes are the memory of the queued
      tasks never dispatched, committed bytes that of the running and suspended ones, both fit the limit, and
      no more tasks are live than the two limits allow together. */
  lemma QuotaConservation(limit: u64, config: Config, slots: nat, trace: seq<State>, events: seq<Event>, i: nat)
    requires IsRun(trace, events) && trace[0] == Initial(limit, config, slots) && i < |trace|
    ensures trace[i].ledger.reserved == Total(ReservedBytes, trace[i].tasks, trace[i].nextTask)
    ensures trace[i].ledger.committed == Total(CommittedBytes, trace[i].tasks, trace[i].nextTask)
    ensures trace[i].queued == Total(QueuedTasks, trace[i].tasks, trace[i].nextTask)
    ensures trace[i].ledger.reserved + trace[i].ledger.committed <= limit
    ensures |trace[i].running| <= trace[0].config.maxRunning
    ensures config.maxQueued != 0 ==>
              trace[i].queued + |trace[i].running| <= config.maxQueued + trace[0].config.maxRunning
  {
    hide IsRun, RingOk, QueuesOk, RunningOk, TasksOk, Total;
    RunKeeps(trace, events, i);
    LimitsStay(trace, events, i);
  }

  lemma StepLimits(s: State, e: Event)
    requires Inv(s)
    ensures Step(s, e).ledger.limit == s.ledger.limit && Step(s, e).config == s.config
  {
    StepRecords(s, e);
  }

  lemma {:induction false} LimitsStay(trace: seq<State>, events: seq<Event>, i: nat)
    requires IsRun(trace, events) && i < |trace|
    ensures trace[i].ledger.limit == trace[0].ledger.limit && trace[i].config == trace[0].config
  {
    hide Inv, Step;
    if i > 0 {
      LimitsStay(trace, events, i - 1);
      RunKeeps(trace, events, i - 1);
      StepLimits(trace[i - 1], events[i - 1]);
    }
  }

  // ---------------------------------------------------------------------------
  // Dispatching a task by name

  /** dispatch_task succeeds exactly when dispatch_next would return that task, and then does the same. */
  lemma DispatchTaskIsDispatchNext(s: State, id: TaskId, fault: DispatchFault)
    requires Inv(s) && Live(s.tasks, id)
    ensures var (named, after) := DispatchTask(s, id, fault);
            var (next, nextState) := DispatchNext(s, fault);
            && (named.Some? <==> next.Some? && next.value.id == id)
            && (named.Some? ==> named == next && after == nextState)
            && (MayDispatch(s) && Peek(s.config.policy, s.tasks, s.ring).None? ==> named.None? && next.None?)
  {
    Known(s, id);
    PeekRefinesSelect(s.config.policy, s.tasks, s.ring);
    var (chosen, selected) := SelectStep(s);
    if chosen.Some? { DispatchSelectedRecords(selected, chosen.value, fault); }
    hide Inv, Peek, Select, ReservationBlocks, DispatchSelected;
  }

  // ---------------------------------------------------------------------------
  // Dispatch identity

  lemma SelectedRaises(s: State, fault: DispatchFault)
    requires Inv(s) && SelectStep(s).0.Some?
    requires DispatchSelected(SelectStep(s).1, SelectStep(s).0.value, fault).0.Some?
    ensures var (d, after) := DispatchSelected(SelectStep(s).1, SelectStep(s).0.value, fault);
            && Live(s.tasks, d.value.id) && s.tasks[d.value.id].sequence < d.value.sequence
            && d.value.id in after.tasks && after.tasks[d.value.id].sequence == d.value.sequence
  {
    SelectTakes(s);
    hide QueuesOk, RunningOk, LedgerOk, BoundsOk, Select, RingOk, Took, TookNone, DispatchSelected;
    var (chosen, selected) := SelectStep(s);
    Known(s, chosen.value);
    DispatchedSequence(selected, chosen.value, fault);
  }

  lemma DispatchedSequence(s: State, chosen: TaskId, fault: DispatchFault)
    requires DispatchSelected(s, chosen, fault).0.Some?
    ensures var (d, after) := DispatchSelected(s, chosen, fault);
            && d.value.id == chosen && d.value.sequence == s.nextSequence
            && chosen in after.tasks && after.tasks[chosen].sequence == s.nextSequence
  {
  }

  lemma DispatchedIsSelected(s: State, e: Event)
    requires InRing(s.ring) && Distinct(s.ring.order) && Dispatched(s, e).Some?
    ensures e.DispatchNextEvent? || e.DispatchTaskEvent?
    ensures var (chosen, selected) := SelectStep(s);
            && chosen.Some?
            && Dispatched(s, e) == DispatchSelected(selected, chosen.value, e.fault).0
            && Step(s, e) == DispatchSelected(selected, chosen.value, e.fault).1
  {
    PeekRefinesSelect(s.config.policy, s.tasks, s.ring);
    hide Select, Peek, ReservationBlocks, DispatchSelected;
  }

  /** A dispatched task was queued, and gets a sequence above any it had. */
  lemma DispatchRaises(s: State, e: Event)
    requires Inv(s) && Dispatched(s, e).Some?
    ensures var d := Dispatched(s, e).value;
            && Live(s.tasks, d.id) && s.tasks[d.id].sequence < d.sequence
            && d.id in Step(s, e).tasks && Step(s, e).tasks[d.id].sequence == d.sequence
  {
    DispatchedIsSelected(s, e);
    hide Inv, Dispatched, Step, DispatchSelected, SelectStep;
    SelectedRaises(s, e.fault);
  }

  /** Sequences of known tasks only grow, and an id that is gone never comes back. */
  lemma SequencesGrow(s: State, e: Event, id: TaskId)
    requires Inv(s) && id < s.nextTask
    ensures id < Step(s, e).nextTask
    ensures id in Step(s, e).tasks ==> id in s.tasks && s.tasks[id].sequence <= Step(s, e).tasks[id].sequence
  {
    StepRecords(s, e);
    if Dispatched(s, e).Some? { DispatchRaises(s, e); }
    hide Inv, Step, Dispatched;
  }

  lemma {:induction false} SequencesGrowOver(trace: seq<State>, events: seq<Event>, i: nat, j: nat, id: TaskId)
    requires IsRun(trace, events) && i <= j <= |events| && id < trace[i].nextTask
    ensures id < trace[j].nextTask
    ensures id in trace[j].tasks ==> id in trace[i].tasks && trace[i].tasks[id].sequence <= trace[j].tasks[id].sequence
  {
    hide Inv, Step;
    if i < j {
      SequencesGrowOver(trace, events, i, j - 1, id);
      RunKeeps(trace, events, j - 1);
      SequencesGrow(trace[j - 1], events[j - 1], id);
    }
  }

  /** Every later dispatch of a task carries a strictly larger sequence, even once the counter saturates, so
      no pair of task and dispatch sequence occurs twice in a run. */
  lemma DispatchesAreUnique(trace: seq<State>, events: seq<Event>, i: nat, j: nat)
    requires IsRun(trace, events) && i < j < |events|
    requires Dispatched(trace[i], events[i]).Some? && Dispatched(trace[j], events[j]).Some?
    ensures var (a, b) := (Dispatched(trace[i], events[i]).value, Dispatched(trace[j], events[j]).value);
            a.id == b.id ==> a.sequence < b.sequence
  {
    hide Inv, Step, Dispatched;
    var a := Dispatched(trace[i], events[i]).value;
    RunKeeps(trace, events, i);
    RunKeeps(trace, events, i + 1);
    RunKeeps(trace, events, j);
    DispatchRaises(trace[i], events[i]);
    DispatchRaises(trace[j], events[j]);
    Known(trace[i + 1], a.id);
    SequencesGrowOver(trace, events, i + 1, j, a.id);
  }
}
