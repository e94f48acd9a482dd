/**
 Pausing, resuming and failing a workflow run: each handler loads the row, decides on what it loaded, and
 commits with a compare-and-set on the state alone. Loads go stale; handlers interleave arbitrarily.
 */
module WorkflowLifecycle {
  import opened Basics

  type Tid = nat

  datatype State = Running | Paused | Failed | Finished

  /** One durable row; `edition`, which is not stored, counts the changes of its resumption time. */
  datatype Row = Row(state: State, pausedAt: Option<int>, resumedAt: Option<int>, endedAt: Option<int>, edition: nat)

  datatype Action = Pause | Resume | Fail

  datatype Pc =
    | Entered(action: Action)
    | Loaded(action: Action, row: Row)
    | Committing(action: Action, row: Row, expected: State)

  /** Whether the handler goes on with the row it loaded. */
  predicate Accepts(action: Action, st: State) {
    match action
    case Pause => st == Running
    case Resume => st == Paused
    case Fail => st == Running || st == Paused
  }

  function Target(action: Action): State {
    match action
    case Pause => Paused
    case Resume => Running
    case Fail => Failed
  }

  /** The row the handler wants to write. */
  function Change(action: Action, row: Row, now: int): Row {
    match action
    case Pause => row.(state := Paused, pausedAt := Some(now))
    case Resume => row.(state := Running, pausedAt := None, resumedAt := Some(now))
    case Fail => row.(state := Failed, endedAt := Some(now))
  }

  /** The compare-and-set writes the four lifecycle columns, if the state is still the expected one. */
  function CompareAndSet(row: Row, wanted: Row, expected: State): Row {
    if row.state != expected then row
    else wanted.(edition := row.edition + (if wanted.resumedAt != row.resumedAt then 1 else 0))
  }

  datatype Sys = Sys(row: Row, threads: map<Tid, Pc>)

  datatype Event =
    | Arrive(t: Tid, action: Action)
    | Advance(t: Tid, now: int)
    | RuntimeFinishes(now: int)

  ghost predicate Enabled(s: Sys, e: Event) {
    match e
    case Arrive(t, _) => t !in s.threads
    case Advance(t, _) => t in s.threads
    case RuntimeFinishes(_) => s.row.state == Running
  }

  ghost function Next(s: Sys, e: Event): Sys
    requires Enabled(s, e)
  {
    match e
    case Arrive(t, action) => s.(threads := s.threads[t := Entered(action)])
    case RuntimeFinishes(now) => s.(row := s.row.(state := Finished, endedAt := Some(now)))
    case Advance(t, now) =>
      match s.threads[t]
      case Entered(action) => s.(threads := s.threads[t := Loaded(action, s.row)])
      case Loaded(action, row) =>
        if !Accepts(action, row.state) then s.(threads := s.threads - {t})
        else s.(threads := s.threads[t := Committing(action, Change(action, row, now), row.state)])
      case Committing(_, wanted, expected) =>
        Sys(CompareAndSet(s.row, wanted, expected), s.threads - {t})
  }

  /** A row as the canary start creates it. */
  ghost predicate Init(s: Sys) {
    s.row.state == Running && s.row.pausedAt == None && s.row.endedAt == None && s.threads == map[]
  }

  ghost predicate Run(states: seq<Sys>, events: seq<Event>) {
    && |states| == |events| + 1 && Init(states[0])
    && forall i {:trigger events[i]} | 0 <= i < |events| :: Enabled(states[i], events[i]) && states[i + 1] == Next(states[i], events[i])
  }

  // --- The invariant ---

  /** Running rows were never paused or have been resumed; paused rows say since when; ended rows say when. */
  ghost predicate Sane(row: Row) {
    && (row.state == Running ==> row.pausedAt == None && row.endedAt == None)
    && (row.state == Paused ==> row.pausedAt.Some? && row.endedAt == None)
    && (row.state == Failed || row.state == Finished ==> row.endedAt.Some?)
  }

  /** What a load remembers: a row that was sane, no newer than the one stored. */
  ghost predicate Remembers(row: Row, loaded: Row) {
    && loaded.edition <= row.edition && (loaded.edition == row.edition ==> loaded.resumedAt == row.resumedAt)
  }

  ghost predicate ThreadOk(row: Row, pc: Pc) {
    match pc
    case Entered(_) => true
    case Loaded(_, r) => Sane(r) && Remembers(row, r)
    case Committing(action, wanted, expected) =>
      && Accepts(action, expected) && wanted.state == Target(action) && Sane(wanted) && wanted.edition <= row.edition
      && (!action.Resume? ==> Remembers(row, wanted))
  }

  ghost predicate Inv(s: Sys) {
    Sane(s.row) && forall t <- s.threads :: ThreadOk(s.row, s.threads[t])
  }

  ghost predicate Allowed(a: State, b: State) {
    || a == b || (a == Running && b == Paused) || (a == Paused && b == Running)
    || (b == Failed && (a == Running || a == Paused)) || (a == Running && b == Finished)
  }

  lemma StepKeepsInv(s: Sys, e: Event)
    requires Inv(s) && Enabled(s, e)
    ensures Inv(Next(s, e))
    ensures Allowed(s.row.state, Next(s, e).row.state)
  {
    var s' := Next(s, e);
    if e.Advance? {
      assert ThreadOk(s.row, s.threads[e.t]);
    }
    forall t | t in s'.threads
      ensures ThreadOk(s'.row, s'.threads[t])
    {
      if t in s.threads {
        assert ThreadOk(s.row, s.threads[t]);
      }
    }
  }

  lemma {:induction false} Reachable(states: seq<Sys>, events: seq<Event>, i: nat)
    requires Run(states, events) && i < |states|
    ensures Inv(states[i])
  {
    if i > 0 {
      Reachable(states, events, i - 1);
      StepKeepsInv(states[i - 1], events[i - 1]);
    }
  }

  // --- The theorems ---

  /** However the handlers interleave, every committed change follows an allowed transition and leaves a sane row. */
  lemma TransitionsAllowed(states: seq<Sys>, events: seq<Event>, i: nat)
    requires Run(states, events) && i < |events|
    ensures Allowed(states[i].row.state, states[i + 1].row.state) && Sane(states[i + 1].row)
  {
    Reachable(states, events, i);
    StepKeepsInv(states[i], events[i]);
  }

  /** A run once failed or finished never changes again. */
  lemma {:induction false} EndIsFinal(states: seq<Sys>, events: seq<Event>, i: nat, j: nat)
    requires Run(states, events) && i <= j < |states| && (states[i].row.state == Failed || states[i].row.state == Finished)
    ensures states[j].row == states[i].row
    decreases j
  {
    if i < j {
      EndIsFinal(states, events, i, j - 1);
      Reachable(states, events, j - 1);
      var s, e := states[j - 1], events[j - 1];
      if e.Advance? {
        assert ThreadOk(s.row, s.threads[e.t]);
      }
    }
  }

  /** The resumption time on record changes only by a resume, or by a writer whose load had missed a change of it. */
  lemma ResumedAtKept(states: seq<Sys>, events: seq<Event>, i: nat)
    requires Run(states, events) && i < |events| && states[i + 1].row.resumedAt != states[i].row.resumedAt
    ensures events[i].Advance? && states[i].threads[events[i].t].Committing?
    ensures var pc := states[i].threads[events[i].t]; pc.action.Resume? || pc.row.edition < states[i].row.edition
  {
    Reachable(states, events, i);
    var s, e := states[i], events[i];
    if e.Advance? {
      assert ThreadOk(s.row, s.threads[e.t]);
    }
  }

  // --- What the handlers must do ---

  /** The `i`-th event of the run is a step of thread `t`. */
  ghost predicate Moves(states: seq<Sys>, events: seq<Event>, i: nat, t: Tid) {
    Run(states, events) && i < |events| && events[i].Advance? && events[i].t == t && t in states[i].threads
  }

  /** A handler goes on with the row it loads exactly from the states its action is for, with that action's changes. */
  lemma HandlerDecides(states: seq<Sys>, events: seq<Event>, t: Tid, i: nat)
    requires Moves(states, events, i, t)
    ensures var (s, s', pc, now) := (states[i], states[i + 1], states[i].threads[t], events[i].now);
      && (pc.Entered? ==> s' == s.(threads := s.threads[t := Loaded(pc.action, s.row)]))
      && (pc.Loaded? ==>
            s'.row == s.row &&
            match pc.action
            case Pause =>
              if pc.row.state == Running
              then s'.threads == s.threads[t := Committing(Pause, pc.row.(state := Paused, pausedAt := Some(now)), Running)]
              else s'.threads == s.threads - {t}
            case Resume =>
              if pc.row.state == Paused
              then s'.threads == s.threads[t := Committing(Resume, pc.row.(state := Running, pausedAt := None, resumedAt := Some(now)), Paused)]
              else s'.threads == s.threads - {t}
            case Fail =>
              if pc.row.state == Running || pc.row.state == Paused
              then s'.threads == s.threads[t := Committing(Fail, pc.row.(state := Failed, endedAt := Some(now)), pc.row.state)]
              else s'.threads == s.threads - {t})
  {
    assert states[i + 1] == Next(states[i], events[i]);
  }

  /** The commit writes the four lifecycle columns exactly if the state still is the one loaded; the handler is done. */
  lemma CommitDecides(states: seq<Sys>, events: seq<Event>, t: Tid, i: nat)
    requires Moves(states, events, i, t) && states[i].threads[t].Committing?
    ensures var (row, row', pc) := (states[i].row, states[i + 1].row, states[i].threads[t]);
      && states[i + 1].threads == states[i].threads - {t}
      && if row.state == pc.expected
         then row'.state == pc.row.state && row'.pausedAt == pc.row.pausedAt && row'.resumedAt == pc.row.resumedAt
              && row'.endedAt == pc.row.endedAt
         else row' == row
  {
    assert states[i + 1] == Next(states[i], events[i]);
  }

  /** A handler with nobody in between carries out its action: from any point of any run, on any row its action is for. */
  lemma ActionCarriedOut(states: seq<Sys>, events: seq<Event>, t: Tid, action: Action, now: int)
    returns (states': seq<Sys>, events': seq<Event>)
    requires Run(states, events) && t !in states[|states| - 1].threads
    requires var st := states[|states| - 1].row.state;
      match action case Pause => st == Running case Resume => st == Paused case Fail => st == Running || st == Paused
    ensures Run(states', events') && states <= states'
    ensures var (row, row') := (states[|states| - 1].row, states'[|states'| - 1].row);
      match action
      case Pause => row'.state == Paused && row'.pausedAt == Some(now) && row'.resumedAt == row.resumedAt && row'.endedAt == row.endedAt
      case Resume => row'.state == Running && row'.pausedAt == None && row'.resumedAt == Some(now) && row'.endedAt == row.endedAt
      case Fail => row'.state == Failed && row'.endedAt == Some(now) && row'.pausedAt == row.pausedAt && row'.resumedAt == row.resumedAt
  {
    states', events' := Whole(states, events, t, action, now);
  }

  /** What a pause or fail that loaded `loaded` carries until it commits. */
  ghost predicate CarriesLoad(pc: Pc, loaded: Row) {
    match pc
    case Entered(_) => false
    case Loaded(action, row) => !action.Resume? && row == loaded
    case Committing(action, wanted, expected) =>
      !action.Resume? && wanted.resumedAt == loaded.resumedAt && expected == loaded.state
  }

  lemma {:induction false} LoadCarried(states: seq<Sys>, events: seq<Event>, t: Tid, i: nat, j: nat)
    requires Run(states, events) && i < j < |states| && forall k | i <= k <= j :: t in states[k].threads
    requires states[i].threads[t].Entered? && !states[i].threads[t].action.Resume? && events[i].Advance? && events[i].t == t
    ensures CarriesLoad(states[j].threads[t], states[i].row)
    decreases j
  {
    assert states[j] == Next(states[j - 1], events[j - 1]);
    if i < j - 1 {
      LoadCarried(states, events, t, i, j - 1);
    }
  }

  /**
   A pause or fail that loads the row in the step at `i` and commits in the step at `j` puts the resumption
   time back to what it was at the load, if the state still is what it was at the load; otherwise it
   changes nothing. So the time on record changes exactly when it had changed between load and commit
   while the state came back.
   */
  lemma CommitPutsLoadBack(states: seq<Sys>, events: seq<Event>, t: Tid, i: nat, j: nat)
    requires Run(states, events) && i < j < |events| && forall k | i <= k <= j :: t in states[k].threads
    requires states[i].threads[t].Entered? && !states[i].threads[t].action.Resume? && events[i].Advance? && events[i].t == t
    requires states[j].threads[t].Committing? && events[j].Advance? && events[j].t == t
    ensures var (loaded, before, after) := (states[i].row, states[j].row, states[j + 1].row);
      && (before.state == loaded.state ==> after.resumedAt == loaded.resumedAt)
      && (before.state != loaded.state ==> after == before)
      && (after.resumedAt != before.resumedAt <==> before.state == loaded.state && before.resumedAt != loaded.resumedAt)
  {
    LoadCarried(states, events, t, i, j);
    assert states[j + 1] == Next(states[j], events[j]);
  }

  lemma Extend(states: seq<Sys>, events: seq<Event>, e: Event) returns (states': seq<Sys>, events': seq<Event>)
    requires Run(states, events) && Enabled(states[|states| - 1], e)
    ensures Run(states', events') && states' == states + [Next(states[|states| - 1], e)]
  {
    states', events' := states + [Next(states[|states| - 1], e)], events + [e];
  }

  /** A handler that arrives, loads and commits with nobody in between. */
  lemma Whole(states: seq<Sys>, events: seq<Event>, t: Tid, action: Action, now: int)
    returns (states': seq<Sys>, events': seq<Event>)
    requires Run(states, events) && t !in states[|states| - 1].threads
    requires Accepts(action, states[|states| - 1].row.state)
    ensures Run(states', events') && states <= states'
    ensures var (s, s') := (states[|states| - 1], states'[|states'| - 1]);
      s' == Sys(CompareAndSet(s.row, Change(action, s.row, now), s.row.state), s.threads)
  {
    states', events' := Extend(states, events, Arrive(t, action));
    states', events' := Extend(states', events', Advance(t, now));
    states', events' := Extend(states', events', Advance(t, now));
    states', events' := Extend(states', events', Advance(t, now));
    assert states[|states| - 1].threads[t := Entered(action)] - {t} == states[|states| - 1].threads;
  }

  /**
   The compare-and-set looks at the state alone, so a pause that loaded the row before somebody else
   paused and resumed it still commits, and takes the resumption time back.
   */
  lemma ResumedAtCanRegress() returns (states: seq<Sys>, events: seq<Event>)
    ensures Run(states, events) && |states| > 1
    ensures states[|states| - 2].row.resumedAt == Some(30)
    ensures states[|states| - 1].row.resumedAt == None && states[|states| - 1].row.state == Paused
  {
    states, events := [Sys(Row(Running, None, None, None, 0), map[])], [];
    states, events := Extend(states, events, Arrive(0, Pause));
    states, events := Extend(states, events, Advance(0, 10));
    assert states[|states| - 1].threads == map[0 := Loaded(Pause, Row(Running, None, None, None, 0))];
    states, events := Whole(states, events, 1, Pause, 20);
    states, events := Whole(states, events, 2, Resume, 30);
    states, events := Extend(states, events, Advance(0, 40));
    states, events := Extend(states, events, Advance(0, 40));
  }

  // --- The handlers and the store as objects ---

  /** A run as one handler has it in memory. */
  class LoadedRun {
    var state: State
    var pausedAt: Option<int>
    var resumedAt: Option<int>
    var endedAt: Option<int>

    constructor (state: State, pausedAt: Option<int>, resumedAt: Option<int>, endedAt: Option<int>)
      ensures Value(0) == Row(state, pausedAt, resumedAt, endedAt, 0)
    {
      this.state, this.pausedAt, this.resumedAt, this.endedAt := state, pausedAt, resumedAt, endedAt;
    }

    ghost function Value(edition: nat): Row
      reads this
    {
      Row(state, pausedAt, resumedAt, endedAt, edition)
    }

    method Apply(action: Action, now: int) returns (ok: bool, expected: State)
      modifies this
      ensures ok <==> Accepts(action, old(state))
      ensures expected == old(state)
      ensures forall n: nat :: Value(n) == if ok then Change(action, old(Value(n)), now) else old(Value(n))
    {
      expected := state;
      match action {
        case Pause =>
          if state != Running {
            return false, expected;
          }
          state, pausedAt := Paused, Some(now);
        case Resume =>
          if state != Paused {
            return false, expected;
          }
          state, pausedAt, resumedAt := Running, None, Some(now);
        case Fail =>
          if state != Running && state != Paused {
            return false, expected;
          }
          state, endedAt := Failed, Some(now);
      }
      ok := true;
    }
  }

  class WorkflowRow {
    var state: State
    var pausedAt: Option<int>
    var resumedAt: Option<int>
    var endedAt: Option<int>
    ghost var edition: nat

    ghost function Value(): Row
      reads this
    {
      Row(state, pausedAt, resumedAt, endedAt, edition)
    }

    method Load() returns (run: LoadedRun)
      ensures fresh(run) && run.Value(edition) == Value()
    {
      run := new LoadedRun(state, pausedAt, resumedAt, endedAt);
    }

    method CompareAndSetLifecycle(run: LoadedRun, expected: State) returns (updated: bool)
      modifies this
      ensures updated <==> old(state) == expected
      ensures Value() == CompareAndSet(old(Value()), run.Value(0), expected)
    {
      if state != expected {
        return false;
      }
      if run.resumedAt != resumedAt {
        edition := edition + 1;
      }
      state, pausedAt, resumedAt, endedAt := run.state, run.pausedAt, run.resumedAt, run.endedAt;
      updated := true;
    }
  }
}
