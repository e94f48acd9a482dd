/**
 Asynchronous spins: a bounded number of slots, one worker per spin, and a watchdog that records a terminal
 status even while the worker is still blocked. The worker stays visible in the spinWorkers count.
 */
module SpinAsync {
  import opened Basics
  import opened PolicyText

  type Id = nat

  datatype Status = Pending | Running | Succeeded | Timeout | Failed

  predicate Terminal(st: Status) {
    st.Succeeded? || st.Timeout? || st.Failed?
  }

  /** How the spin ended: no error, the deadline, or another error. */
  datatype Ending = Clean | Deadline | OtherError

  function FinalStatus(e: Ending): Status {
    match e
    case Clean => Succeeded
    case Deadline => Timeout
    case OtherError => Failed
  }

  datatype Pc = Waiting | Acquired | Marked | Watching | Finishing(ending: Ending) | Finished | Gone

  datatype Worker = NotStarted | Working | Reported(ending: Ending) | Exited(ending: Ending)

  /** One accepted spin: its runner, its worker, the durable row, and how often it was finished. */
  datatype Spin = Spin(pc: Pc, worker: Worker, row: Status, holdsSlot: bool, finishes: nat)

  datatype Sys = Sys(spins: map<Id, Spin>, slots: nat, workers: int)

  datatype Event =
    | Accept(id: Id)
    | AcquireSlot(id: Id)
    | GiveUpWaiting(id: Id, ending: Ending)
    | MarkRunning(id: Id, stored: bool)
    | StartWorker(id: Id)
    | WorkerReports(id: Id, ending: Ending)
    | WorkerExits(id: Id)
    | TakeReport(id: Id)
    | WatchdogFires(id: Id, ending: Ending)
    | Finish(id: Id, stored: bool)
    | ReleaseSlot(id: Id)

  ghost predicate Enabled(s: Sys, capacity: nat, e: Event) {
    match e
    case Accept(id) => id !in s.spins
    case AcquireSlot(id) => id in s.spins && s.spins[id].pc == Waiting && s.slots < capacity
    case GiveUpWaiting(id, ending) => id in s.spins && s.spins[id].pc == Waiting && ending != Clean
    case MarkRunning(id, _) => id in s.spins && s.spins[id].pc == Acquired
    case StartWorker(id) => id in s.spins && s.spins[id].pc == Marked
    case WorkerReports(id, _) => id in s.spins && s.spins[id].worker == Working
    case WorkerExits(id) => id in s.spins && s.spins[id].worker.Reported?
    case TakeReport(id) => id in s.spins && s.spins[id].pc == Watching && (s.spins[id].worker.Reported? || s.spins[id].worker.Exited?)
    case WatchdogFires(id, ending) => id in s.spins && s.spins[id].pc == Watching && ending != Clean
    case Finish(id, _) => id in s.spins && s.spins[id].pc.Finishing?
    case ReleaseSlot(id) => id in s.spins && s.spins[id].pc == Finished
  }

  ghost function Next(s: Sys, capacity: nat, e: Event): Sys
    requires Enabled(s, capacity, e)
  {
    match e
    case Accept(id) => s.(spins := s.spins[id := Spin(Waiting, NotStarted, Pending, false, 0)])
    case AcquireSlot(id) => s.(spins := s.spins[id := s.spins[id].(pc := Acquired, holdsSlot := true)], slots := s.slots + 1)
    case GiveUpWaiting(id, ending) => s.(spins := s.spins[id := s.spins[id].(pc := Finishing(ending))])
    case MarkRunning(id, stored) =>
      s.(spins := s.spins[id := s.spins[id].(pc := Marked, row := if stored then Running else s.spins[id].row)])
    case StartWorker(id) =>
      s.(spins := s.spins[id := s.spins[id].(pc := Watching, worker := Working)], workers := s.workers + 1)
    case WorkerReports(id, ending) => s.(spins := s.spins[id := s.spins[id].(worker := Reported(ending))])
    case WorkerExits(id) => s.(spins := s.spins[id := s.spins[id].(worker := Exited(s.spins[id].worker.ending))], workers := s.workers - 1)
    case TakeReport(id) => s.(spins := s.spins[id := s.spins[id].(pc := Finishing(s.spins[id].worker.ending))])
    case WatchdogFires(id, ending) => s.(spins := s.spins[id := s.spins[id].(pc := Finishing(ending))])
    case Finish(id, stored) =>
      var spin := s.spins[id];
      s.(spins := s.spins[id := spin.(pc := Finished, finishes := spin.finishes + 1,
                                      row := if stored then FinalStatus(spin.pc.ending) else spin.row)])
    case ReleaseSlot(id) =>
      var spin := s.spins[id];
      s.(spins := s.spins[id := spin.(pc := Gone, holdsSlot := false)],
         slots := if spin.holdsSlot && s.slots > 0 then s.slots - 1 else s.slots)
  }

  ghost predicate Run(capacity: nat, states: seq<Sys>, events: seq<Event>) {
    && |states| == |events| + 1 && states[0] == Sys(map[], 0, 0)
    && forall i {:trigger events[i]} | 0 <= i < |events| :: Enabled(states[i], capacity, events[i]) && states[i + 1] == Next(states[i], capacity, events[i])
  }

  // --- The invariant ---

  ghost predicate Live(w: Worker) {
    w.Working? || w.Reported?
  }

  ghost function LiveWorkers(s: Sys): set<Id> {
    set id | id in s.spins && Live(s.spins[id].worker)
  }

  ghost function Holders(s: Sys): set<Id> {
    set id | id in s.spins && s.spins[id].holdsSlot
  }

  /** One spin, wherever it is: the row ends only when it is finished, and it is finished once. */
  ghost predicate SpinOk(x: Spin) {
    && (Terminal(x.row) ==> x.pc.Finished? || x.pc.Gone?)
    && (x.pc.Waiting? ==> !x.holdsSlot)
    && (x.pc.Acquired? || x.pc.Marked? || x.pc.Watching? ==> x.holdsSlot)
    && (x.pc.Waiting? || x.pc.Acquired? || x.pc.Marked? ==> x.worker == NotStarted)
    && (x.pc.Watching? ==> x.worker != NotStarted)
    && x.finishes == (if x.pc.Finished? || x.pc.Gone? then 1 else 0)
    && (x.pc.Gone? ==> !x.holdsSlot)
  }

  ghost predicate Inv(s: Sys, capacity: nat) {
    && (forall id <- s.spins :: SpinOk(s.spins[id]))
    && s.workers == |LiveWorkers(s)| && s.slots == |Holders(s)| && s.slots <= capacity
  }

  lemma MemberCount(a: set<Id>, b: set<Id>, id: Id)
    requires a - {id} == b - {id}
    ensures |b| == |a| + (if id in b && id !in a then 1 else 0) - (if id in a && id !in b then 1 else 0)
  {
    if id in a {
      SizeWithout(a, id);
    }
    if id in b {
      SizeWithout(b, id);
    }
    assert id !in a ==> a - {id} == a;
    assert id !in b ==> b - {id} == b;
  }

  ghost function LiveIn(s: Sys, id: Id): int { if id in LiveWorkers(s) then 1 else 0 }

  ghost function HolderIn(s: Sys, id: Id): int { if id in Holders(s) then 1 else 0 }

  /** An event moves one spin and no other. */
  lemma OneSpinMoves(s: Sys, capacity: nat, e: Event)
    requires Inv(s, capacity) && Enabled(s, capacity, e)
    ensures var s' := Next(s, capacity, e);
      && e.id in s'.spins && SpinOk(s'.spins[e.id])
      && forall k | k != e.id :: (k in s'.spins <==> k in s.spins) && (k in s.spins ==> s'.spins[k] == s.spins[k])
  {
    if e.id in s.spins {
      assert SpinOk(s.spins[e.id]);
    }
  }

  /** The two counters move with it. */
  lemma CountersMove(s: Sys, capacity: nat, e: Event)
    requires Inv(s, capacity) && Enabled(s, capacity, e)
    ensures var s' := Next(s, capacity, e);
      && s'.workers - s.workers == LiveIn(s', e.id) - LiveIn(s, e.id)
      && s'.slots - s.slots == HolderIn(s', e.id) - HolderIn(s, e.id) && s'.slots <= capacity
  {
    if e.id in s.spins {
      assert SpinOk(s.spins[e.id]);
      if s.spins[e.id].holdsSlot {
        assert e.id in Holders(s);
      }
    }
  }

  lemma StepKeepsInv(s: Sys, capacity: nat, e: Event)
    requires Inv(s, capacity) && Enabled(s, capacity, e)
    ensures Inv(Next(s, capacity, e), capacity)
  {
    var s' := Next(s, capacity, e);
    OneSpinMoves(s, capacity, e);
    CountersMove(s, capacity, e);
    assert LiveWorkers(s) - {e.id} == LiveWorkers(s') - {e.id};
    assert Holders(s) - {e.id} == Holders(s') - {e.id};
    MemberCount(LiveWorkers(s), LiveWorkers(s'), e.id);
    MemberCount(Holders(s), Holders(s'), e.id);
  }

  lemma {:induction false} Reachable(capacity: nat, states: seq<Sys>, events: seq<Event>, i: nat)
    requires Run(capacity, states, events) && i < |states|
    ensures Inv(states[i], capacity)
  {
    if i == 0 {
      assert LiveWorkers(states[0]) == {} && Holders(states[0]) == {};
    } else {
      Reachable(capacity, states, events, i - 1);
      StepKeepsInv(states[i - 1], capacity, events[i - 1]);
    }
  }

  // --- The theorems ---

  /** From acceptance until its worker has exited, a spin shows: in its row or in the count of workers. */
  lemma OrphanStaysVisible(capacity: nat, states: seq<Sys>, events: seq<Event>, i: nat, id: Id)
    requires Run(capacity, states, events) && i < |states| && id in states[i].spins
    ensures var x := states[i].spins[id];
      !Terminal(x.row) || states[i].workers > 0 || ((x.pc.Finished? || x.pc.Gone?) && !Live(x.worker))
    ensures Live(states[i].spins[id].worker) ==> states[i].workers > 0
  {
    Reachable(capacity, states, events, i);
    assert SpinOk(states[i].spins[id]);
    if Live(states[i].spins[id].worker) {
      assert id in LiveWorkers(states[i]);
    }
  }

  /** No more slots are held than there are, and a spin is finished at most once, exactly once when its runner returns. */
  lemma SlotsAndFinishes(capacity: nat, states: seq<Sys>, events: seq<Event>, i: nat, id: Id)
    requires Run(capacity, states, events) && i < |states|
    ensures |Holders(states[i])| <= capacity
    ensures id in states[i].spins ==> states[i].spins[id].finishes <= 1
    ensures id in states[i].spins && states[i].spins[id].pc.Gone? ==> states[i].spins[id].finishes == 1 && !states[i].spins[id].holdsSlot
  {
    Reachable(capacity, states, events, i);
    assert id in states[i].spins ==> SpinOk(states[i].spins[id]);
  }

  lemma {:induction false} RowStaysTerminal(capacity: nat, states: seq<Sys>, events: seq<Event>, i: nat, j: nat, id: Id)
    requires Run(capacity, states, events) && i <= j < |states| && id in states[i].spins && Terminal(states[i].spins[id].row)
    ensures id in states[j].spins && Terminal(states[j].spins[id].row)
    decreases j
  {
    if i < j {
      RowStaysTerminal(capacity, states, events, i, j - 1, id);
      assert states[j] == Next(states[j - 1], capacity, events[j - 1]);
      Reachable(capacity, states, events, j - 1);
      assert SpinOk(states[j - 1].spins[id]);
    }
  }

  lemma NoNewWorker(s: Sys, capacity: nat, e: Event, id: Id)
    requires Enabled(s, capacity, e) && id in s.spins && SpinOk(s.spins[id])
    requires Terminal(s.spins[id].row) && !Live(s.spins[id].worker)
    ensures var s' := Next(s, capacity, e); id in s'.spins && !Live(s'.spins[id].worker)
  {
  }

  /**
   What a quiescence read may conclude: if the durable rows all showed terminal at one instant and the
   worker count was zero at a later one, then none of those spins has a worker then or ever after.
   */
  lemma {:induction false} QuietMeansNoWorker(capacity: nat, states: seq<Sys>, events: seq<Event>, i: nat, j: nat, k: nat, id: Id)
    requires Run(capacity, states, events) && i <= j <= k < |states|
    requires id in states[i].spins && Terminal(states[i].spins[id].row) && states[j].workers == 0
    ensures id in states[k].spins && !Live(states[k].spins[id].worker)
    decreases k
  {
    RowStaysTerminal(capacity, states, events, i, k, id);
    if k == j {
      OrphanStaysVisible(capacity, states, events, k, id);
    } else {
      QuietMeansNoWorker(capacity, states, events, i, j, k - 1, id);
      RowStaysTerminal(capacity, states, events, i, k - 1, id);
      Reachable(capacity, states, events, k - 1);
      NoNewWorker(states[k - 1], capacity, events[k - 1], id);
    }
  }

  // --- What a spin comes to ---

  /** The way of ending says what the row says: success only for a clean end, timeout only for the deadline. */
  lemma FinishRecords(capacity: nat, states: seq<Sys>, events: seq<Event>, i: nat, id: Id, stored: bool)
    requires Run(capacity, states, events) && i < |events| && events[i] == Finish(id, stored)
    ensures id in states[i].spins && states[i].spins[id].pc.Finishing? && id in states[i + 1].spins
    ensures var (x, y) := (states[i].spins[id], states[i + 1].spins[id]);
      && y.pc == Finished && y.worker == x.worker && y.holdsSlot == x.holdsSlot
      && (!stored ==> y.row == x.row)
      && (stored ==> (y.row == Succeeded <==> x.pc.ending == Clean) && (y.row == Timeout <==> x.pc.ending == Deadline)
                     && (y.row == Failed <==> x.pc.ending == OtherError))
  {
    assert states[i + 1] == Next(states[i], capacity, events[i]);
  }

  /** The worker has ended well, whether or not it has already gone. */
  ghost predicate EndedWell(w: Worker) {
    w == Reported(Clean) || w == Exited(Clean)
  }

  ghost predicate SuccessEarned(x: Spin) {
    (x.pc == Finishing(Clean) ==> EndedWell(x.worker)) && (x.row == Succeeded ==> EndedWell(x.worker))
  }

  lemma SuccessStaysEarned(s: Sys, capacity: nat, e: Event, id: Id)
    requires Enabled(s, capacity, e) && id in Next(s, capacity, e).spins
    requires id in s.spins ==> SuccessEarned(s.spins[id]) && SpinOk(s.spins[id])
    ensures SuccessEarned(Next(s, capacity, e).spins[id])
  {
  }

  /** A row that says it succeeded has a worker that reported a clean end: neither watchdog nor shutdown can make one. */
  lemma {:induction false} SuccessIsEarned(capacity: nat, states: seq<Sys>, events: seq<Event>, i: nat, id: Id)
    requires Run(capacity, states, events) && i < |states| && id in states[i].spins
    ensures SuccessEarned(states[i].spins[id])
  {
    if i > 0 {
      if id in states[i - 1].spins {
        SuccessIsEarned(capacity, states, events, i - 1, id);
        Reachable(capacity, states, events, i - 1);
      }
      assert states[i] == Next(states[i - 1], capacity, events[i - 1]);
      SuccessStaysEarned(states[i - 1], capacity, events[i - 1], id);
    }
  }

  lemma Extend(capacity: nat, states: seq<Sys>, events: seq<Event>, e: Event) returns (states': seq<Sys>, events': seq<Event>)
    requires Run(capacity, states, events) && Enabled(states[|states| - 1], capacity, e)
    ensures Run(capacity, states', events') && states' == states + [Next(states[|states| - 1], capacity, e)]
  {
    states', events' := states + [Next(states[|states| - 1], capacity, e)], events + [e];
  }

  /** With a slot free a new spin can be accepted and set to work: its row is running, its worker counted, its slot held. */
  lemma SpinStarts(capacity: nat, states: seq<Sys>, events: seq<Event>, id: Id) returns (states': seq<Sys>, events': seq<Event>)
    requires Run(capacity, states, events) && id !in states[|states| - 1].spins && states[|states| - 1].slots < capacity
    ensures Run(capacity, states', events') && states <= states'
    ensures var (s, s') := (states[|states| - 1], states'[|states'| - 1]);
      && s'.spins == s.spins[id := Spin(Watching, Working, Running, true, 0)]
      && s'.workers == s.workers + 1 && s'.slots == s.slots + 1
  {
    states', events' := Extend(capacity, states, events, Accept(id));
    states', events' := Extend(capacity, states', events', AcquireSlot(id));
    states', events' := Extend(capacity, states', events', MarkRunning(id, true));
    states', events' := Extend(capacity, states', events', StartWorker(id));
  }

  /** A spin at work that ends well can come to its success: the row says so, the worker is gone, the slot is free again. */
  lemma SpinSucceeds(capacity: nat, states: seq<Sys>, events: seq<Event>, id: Id) returns (states': seq<Sys>, events': seq<Event>)
    requires Run(capacity, states, events) && id in states[|states| - 1].spins
    requires states[|states| - 1].spins[id] == Spin(Watching, Working, Running, true, 0)
    ensures Run(capacity, states', events') && states <= states'
    ensures var (s, s') := (states[|states| - 1], states'[|states'| - 1]);
      && s'.spins == s.spins[id := Spin(Gone, Exited(Clean), Succeeded, false, 1)]
      && s'.workers == s.workers - 1 && s'.slots == s.slots - 1
  {
    Reachable(capacity, states, events, |states| - 1);
    assert id in Holders(states[|states| - 1]);
    states', events' := Extend(capacity, states, events, WorkerReports(id, Clean));
    states', events' := Extend(capacity, states', events', TakeReport(id));
    states', events' := Extend(capacity, states', events', Finish(id, true));
    states', events' := Extend(capacity, states', events', WorkerExits(id));
    states', events' := Extend(capacity, states', events', ReleaseSlot(id));
  }

  // --- The runner's objects ---

  datatype Waited = Took | GaveUp | Blocked

  /** The operator's share of an asynchronous spin: the semaphore and the worker count. */
  class SpinPool {
    const capacity: nat
    var slots: nat
    var spinWorkers: int

    constructor (capacity: nat)
      ensures this.capacity == capacity && slots == 0 && spinWorkers == 0
    {
      this.capacity, slots, spinWorkers := capacity, 0, 0;
    }

    /**
     One look of the waiting select: it blocks while the pool is full and the context has not ended, gives up
     only once the context has ended, and takes a slot only when one is free. When both are possible either
     may happen; `preferSlot` says which.
     */
    method Acquire(contextDone: bool, preferSlot: bool) returns (w: Waited)
      requires slots <= capacity
      modifies `slots
      ensures slots <= capacity && slots == old(slots) + (if w.Took? then 1 else 0)
      ensures w.Blocked? <==> old(slots) == capacity && !contextDone
      ensures w.Took? <==> old(slots) < capacity && (!contextDone || preferSlot)
      ensures w.GaveUp? <==> contextDone && (old(slots) == capacity || !preferSlot)
    {
      if slots < capacity && (!contextDone || preferSlot) {
        slots := slots + 1;
        w := Took;
      } else if contextDone {
        w := GaveUp;
      } else {
        w := Blocked;
      }
    }

    method Release()
      requires slots > 0
      modifies `slots
      ensures slots == old(slots) - 1
    {
      slots := slots - 1;
    }

    method WorkerStarts()
      modifies `spinWorkers
      ensures spinWorkers == old(spinWorkers) + 1
    {
      spinWorkers := spinWorkers + 1;
    }

    method WorkerEnds()
      modifies `spinWorkers
      ensures spinWorkers == old(spinWorkers) - 1
    {
      spinWorkers := spinWorkers - 1;
    }
  }

  class SpinRun {
    var status: Status
    var planIds: seq<string>
    var error: string
    var endedAt: Option<int>

    /** finishSpin: every way of ending sets one terminal status and an end time. */
    method FinishSpin(ids: seq<string>, note: string, ending: Ending, message: string, now: int)
      modifies this
      ensures status == FinalStatus(ending) && Terminal(status) && endedAt == Some(now) && planIds == ids
      ensures (status == Succeeded <==> ending == Clean) && (status == Timeout <==> ending == Deadline)
      ensures status == Failed <==> ending == OtherError
      ensures error == if ending.Clean? then note else message
    {
      endedAt := Some(now);
      planIds := ids;
      match ending {
        case Clean => status, error := Succeeded, note;
        case Deadline => status, error := Timeout, message;
        case OtherError => status, error := Failed, message;
      }
    }
  }

  // --- The frames of a request ---

  ghost predicate Asked(names: seq<string>, f: string) {
    f != "" && exists i :: 0 <= i < |names| && TrimSpace(names[i]) == f
  }

  /** The first position at which the name is asked for. */
  ghost predicate FirstAt(names: seq<string>, f: string, p: nat) {
    p < |names| && TrimSpace(names[p]) == f && forall i | 0 <= i < p :: TrimSpace(names[i]) != f
  }

  /** The frames asked for, each once and in the order of first mention. */
  method MergeRequestFrames(frame: string, frames: seq<string>) returns (names: seq<string>)
    ensures forall f :: f in names <==> Asked([frame] + frames, f)
    ensures forall i, j, p: nat, q: nat | 0 <= i < j < |names| ::
              FirstAt([frame] + frames, names[i], p) && FirstAt([frame] + frames, names[j], q) ==> p < q
  {
    var all := [frame] + frames;
    var seen: set<string> := {};
    names := [];
    for k := 0 to |all|
      invariant forall f :: f in seen <==> f in names
      invariant forall f :: f in names <==> f != "" && exists i :: 0 <= i < k && TrimSpace(all[i]) == f
      invariant forall i, j, p: nat, q: nat | 0 <= i < j < |names| :: FirstAt(all, names[i], p) && FirstAt(all, names[j], q) ==> p < q
      invariant forall i, p: nat | 0 <= i < |names| :: FirstAt(all, names[i], p) ==> p < k
    {
      var name := TrimSpace(all[k]);
      if name == "" || name in seen {
        continue;
      }
      seen := seen + {name};
      names := names + [name];
    }
  }
}
