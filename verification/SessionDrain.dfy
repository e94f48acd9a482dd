/**
 The Streamable HTTP session registry and the shutdown drain, as a step system. A new session is
 published in two steps, sessions first and drain registry second, and only then does its handler look
 at the shutdown flag again; the drain sets the flag first and takes its snapshot afterwards.
 */
module SessionDrain {
  import opened Basics

  type Id = nat
  type Tid = nat

  /** The handler's sessions, the drain registry's entries, and how often each session was closed. */
  datatype Registry = Registry(shuttingDown: bool, nextId: Id, sessions: set<Id>, conns: set<Id>, closes: multiset<Id>)

  datatype Pc =
    | InitGate
    | Starting
    | Publishing(id: Id)
    | Registering(id: Id)
    | Rechecking(id: Id)
    | Serving(id: Id)
    | DeleteGate(id: Id, keep: bool)
    | Removing(id: Id)
    | Unregistering(id: Id)
    | Closing(id: Id)

  // --- The atomic regions ---

  function PutSession(r: Registry, id: Id): Registry {
    r.(sessions := r.sessions + {id})
  }

  function AddConn(r: Registry, id: Id): Registry {
    r.(conns := r.conns + {id})
  }

  /** The locked half of removeAndClose: whoever takes the session out is the one to close it. */
  function TakeSession(r: Registry, id: Id): (Registry, bool) {
    (r.(sessions := r.sessions - {id}), id in r.sessions)
  }

  function RemoveConn(r: Registry, id: Id): Registry {
    r.(conns := r.conns - {id})
  }

  function CloseSession(r: Registry, id: Id): Registry {
    r.(closes := r.closes + multiset{id})
  }

  /** One step of a handler or drain worker; `ok` says whether starting or serving succeeds. */
  function Step(r: Registry, pc: Pc, ok: bool): (Registry, Option<Pc>) {
    match pc
    case InitGate => (r, if r.shuttingDown then None else Some(Starting))
    case Starting => if ok then (r.(nextId := r.nextId + 1), Some(Publishing(r.nextId))) else (r, None)
    case Publishing(id) => (PutSession(r, id), Some(Registering(id)))
    case Registering(id) => (AddConn(r, id), Some(Rechecking(id)))
    case Rechecking(id) => (r, Some(if r.shuttingDown then Removing(id) else Serving(id)))
    case Serving(id) => (r, if ok then None else Some(Removing(id)))
    case DeleteGate(id, keep) => (r, if r.shuttingDown && !keep then None else Some(Removing(id)))
    case Removing(id) => var (r', taken) := TakeSession(r, id); (r', if taken then Some(Unregistering(id)) else None)
    case Unregistering(id) => (RemoveConn(r, id), Some(Closing(id)))
    case Closing(id) => (CloseSession(r, id), None)
  }

  // --- The whole system ---

  datatype DrainPhase = Running | Flagged | Draining(workers: set<Tid>) | Drained

  datatype Sys = Sys(reg: Registry, drain: DrainPhase, threads: map<Tid, Pc>)

  datatype Event =
    | Initialize(t: Tid)
    | Delete(t: Tid, id: Id, keep: bool)
    | Advance(t: Tid, ok: bool)
    | RaiseFlag
    | Snapshot(workers: map<Tid, Id>)
    | FinishDrain

  /** DrainAll starts one worker for every entry it finds, each to remove and close that session. */
  ghost predicate WorkersFor(workers: map<Tid, Id>, conns: set<Id>, threads: map<Tid, Pc>) {
    workers.Keys !! threads.Keys && workers.Values == conns
  }

  ghost predicate Enabled(s: Sys, e: Event) {
    match e
    case Initialize(t) => t !in s.threads
    case Delete(t, _, _) => t !in s.threads
    case Advance(t, _) => t in s.threads
    case RaiseFlag => s.drain.Running?
    case Snapshot(workers) => s.drain.Flagged? && WorkersFor(workers, s.reg.conns, s.threads)
    case FinishDrain => s.drain.Draining? && s.drain.workers !! s.threads.Keys
  }

  ghost function Spawned(workers: map<Tid, Id>): map<Tid, Pc> {
    map t | t in workers :: Removing(workers[t])
  }

  ghost function Next(s: Sys, e: Event): Sys
    requires Enabled(s, e)
  {
    match e
    case Initialize(t) => s.(threads := s.threads[t := InitGate])
    case Delete(t, id, keep) => s.(threads := s.threads[t := DeleteGate(id, keep)])
    case Advance(t, ok) =>
      var (r, pc) := Step(s.reg, s.threads[t], ok);
      s.(reg := r, threads := if pc.Some? then s.threads[t := pc.value] else s.threads - {t})
    case RaiseFlag => s.(reg := s.reg.(shuttingDown := true), drain := Flagged)
    case Snapshot(workers) => s.(drain := Draining(workers.Keys), threads := s.threads + Spawned(workers))
    case FinishDrain => s.(drain := Drained)
  }

  ghost predicate Init(s: Sys) {
    s == Sys(Registry(false, 0, {}, {}, multiset{}), Running, map[])
  }

  ghost predicate Run(states: seq<Sys>, events: seq<Event>) {
    && |states| == |events| + 1 && Init(states[0])
    && forall i {:trigger events[i]} | 0 <= i < |events| :: Enabled(states[i], events[i]) && states[i + 1] == Next(states[i], events[i])
  }

  // --- The invariant ---

  /** The thread has taken the session out and not closed it yet. */
  ghost predicate Holds(pc: Pc, id: Id) {
    pc == Unregistering(id) || pc == Closing(id)
  }

  ghost predicate Held(s: Sys, id: Id) {
    exists t :: t in s.threads && Holds(s.threads[t], id)
  }

  /** The thread has not yet got past making the session known to the drain. */
  ghost predicate Announcing(pc: Pc, id: Id) {
    pc == Registering(id) || pc == Rechecking(id)
  }

  ghost predicate Born(r: Registry, pc: Pc) {
    (pc.Publishing? || pc.Registering? || pc.Rechecking? || pc.Serving? || pc.Unregistering? || pc.Closing?) ==> pc.id < r.nextId
  }

  /** Before its publishing step a session is nowhere. */
  ghost predicate Unseen(s: Sys, id: Id) {
    id !in s.reg.sessions && s.reg.closes[id] == 0 && !Held(s, id)
  }

  ghost predicate Coming(s: Sys, id: Id) {
    exists t :: t in s.threads && s.threads[t] == Publishing(id)
  }

  /** A published session is in exactly one of three places: the registry, one remover's hands, or closed once. */
  ghost predicate OnePlace(s: Sys, id: Id) {
    && s.reg.closes[id] <= 1
    && (id in s.reg.sessions ==> s.reg.closes[id] == 0 && !Held(s, id))
    && (s.reg.closes[id] == 1 ==> !Held(s, id))
    && (id !in s.reg.sessions && s.reg.closes[id] == 0 ==> Held(s, id))
  }

  /** Where a session is: not yet published, or in its one place. */
  ghost predicate Placed(s: Sys, id: Id) {
    if id >= s.reg.nextId || Coming(s, id) then Unseen(s, id) else OnePlace(s, id)
  }

  ghost predicate Places(s: Sys) {
    forall id: Id :: Placed(s, id)
  }

  ghost predicate SingleHolder(s: Sys) {
    && (forall t, u, id: Id | t in s.threads && u in s.threads ::
          Holds(s.threads[t], id) && Holds(s.threads[u], id) ==> t == u)
    && (forall t, u | t in s.threads && u in s.threads && s.threads[t].Publishing? && s.threads[u] == s.threads[t] :: t == u)
  }

  /** Someone will still make sure that the session is closed. */
  ghost predicate Attended(s: Sys, id: Id) {
    exists t :: t in s.threads && (Announcing(s.threads[t], id) || s.threads[t] == Removing(id))
  }

  /** A session in the registry is known to the drain, or its own handler has yet to register it. */
  ghost predicate Known(s: Sys, id: Id) {
    id in s.reg.conns || exists t :: t in s.threads && s.threads[t] == Registering(id)
  }

  ghost predicate Covered(s: Sys) {
    && (forall id <- s.reg.sessions :: Known(s, id))
    && (s.drain.Draining? || s.drain.Drained? ==> forall id <- s.reg.sessions :: Attended(s, id))
  }

  ghost predicate Flags(s: Sys) {
    s.reg.shuttingDown <==> !s.drain.Running?
  }

  ghost predicate Inv(s: Sys) {
    Flags(s) && (forall t <- s.threads :: Born(s.reg, s.threads[t])) && SingleHolder(s) && Places(s) && Covered(s)
  }

  // --- Every step keeps it ---

  lemma StepKeepsInv(s: Sys, e: Event)
    requires Inv(s) && Enabled(s, e)
    ensures Inv(Next(s, e))
  {
    match e {
      case Initialize(t) => ArrivalKeepsInv(s, t, InitGate);
      case Delete(t, id, keep) => ArrivalKeepsInv(s, t, DeleteGate(id, keep));
      case Advance(t, ok) => AdvanceKeepsInv(s, t, ok);
      case RaiseFlag => SameThreads(s, Next(s, e));
      case Snapshot(workers) => SnapshotKeepsInv(s, workers);
      case FinishDrain => SameThreads(s, Next(s, e));
    }
  }

  /** Places and cover depend only on who holds, publishes and registers what. */
  lemma SamePlaces(s: Sys, s': Sys)
    requires Places(s) && s'.reg == s.reg.(shuttingDown := s'.reg.shuttingDown)
    requires forall id: Id :: (Held(s', id) <==> Held(s, id)) && (Coming(s', id) <==> Coming(s, id))
    ensures Places(s')
  {
    forall id: Id
      ensures Placed(s', id)
    {
      assert Coming(s', id) <==> Coming(s, id);
      assert Held(s', id) <==> Held(s, id);
      assert Placed(s, id);
    }
  }

  lemma SameThreads(s: Sys, s': Sys)
    requires Inv(s) && s'.threads == s.threads && Flags(s')
    requires s'.reg == s.reg.(shuttingDown := s'.reg.shuttingDown)
    requires (s'.drain.Draining? || s'.drain.Drained?) ==> s.drain.Draining? || s.drain.Drained?
    ensures Inv(s')
  {
    assert forall id: Id :: (Held(s', id) <==> Held(s, id)) && (Coming(s', id) <==> Coming(s, id));
    assert forall id: Id :: (Attended(s, id) ==> Attended(s', id)) && (Known(s, id) ==> Known(s', id));
    SamePlaces(s, s');
  }

  /** A thread at a point that holds and announces nothing may come or stay. */
  ghost predicate Bystander(pc: Pc) {
    pc.InitGate? || pc.Starting? || pc.DeleteGate? || pc.Serving? || pc.Removing?
  }

  lemma ArrivalKeepsInv(s: Sys, t: Tid, pc: Pc)
    requires Inv(s) && t !in s.threads && Bystander(pc) && !pc.Serving?
    ensures Inv(s.(threads := s.threads[t := pc]))
  {
    MorePcs(s, s.(threads := s.threads[t := pc]));
  }

  /** Adding bystanders changes nothing that matters. */
  lemma MorePcs(s: Sys, s': Sys)
    requires Inv(s) && s'.reg == s.reg && s'.drain == s.drain
    requires s.threads.Keys <= s'.threads.Keys && forall t <- s.threads :: s'.threads[t] == s.threads[t]
    requires forall t | t in s'.threads && t !in s.threads :: Bystander(s'.threads[t]) && !s'.threads[t].Serving?
    ensures Inv(s')
  {
    forall id: Id
      ensures (Held(s', id) <==> Held(s, id)) && (Coming(s', id) <==> Coming(s, id))
      ensures (Attended(s, id) ==> Attended(s', id)) && (Known(s, id) ==> Known(s', id))
    {
      if t :| t in s.threads && Holds(s.threads[t], id) {
        assert Holds(s'.threads[t], id);
      }
      if t :| t in s.threads && s.threads[t] == Publishing(id) {
        assert s'.threads[t] == Publishing(id);
      }
      if t :| t in s.threads && s.threads[t] == Registering(id) {
        assert s'.threads[t] == Registering(id);
      }
      if t :| t in s.threads && (Announcing(s.threads[t], id) || s.threads[t] == Removing(id)) {
        assert t in s'.threads && s'.threads[t] == s.threads[t];
      }
    }
    SamePlaces(s, s');
  }

  lemma SnapshotKeepsInv(s: Sys, workers: map<Tid, Id>)
    requires Inv(s) && s.drain.Flagged? && WorkersFor(workers, s.reg.conns, s.threads)
    ensures Inv(Next(s, Snapshot(workers)))
  {
    var s' := Next(s, Snapshot(workers));
    var mid := s.(threads := s'.threads);
    MorePcs(s, mid);
    forall id | id in s'.reg.sessions
      ensures Attended(s', id)
    {
      assert Known(s, id);
      if id in s.reg.conns {
        assert id in workers.Values;
        var t :| t in workers && workers[t] == id;
        assert s'.threads[t] == Removing(id);
      } else {
        var t :| t in s.threads && s.threads[t] == Registering(id);
        assert Announcing(s'.threads[t], id);
      }
    }
    assert forall id: Id :: (Held(mid, id) <==> Held(s', id)) && (Coming(mid, id) <==> Coming(s', id));
    assert forall id: Id :: Known(mid, id) ==> Known(s', id);
    SamePlaces(mid, s');
  }

  /** What another thread's move leaves in place. */
  ghost predicate OthersSame(s: Sys, s': Sys, t: Tid) {
    && t in s.threads && (forall u <- s'.threads :: u == t || u in s.threads)
    && forall u <- s.threads :: u == t || (u in s'.threads && s'.threads[u] == s.threads[u])
  }

  ghost predicate At(s: Sys, t: Tid, pc: Pc) {
    t in s.threads && s.threads[t] == pc
  }

  lemma AdvanceKeepsInv(s: Sys, t: Tid, ok: bool)
    requires Inv(s) && t in s.threads
    ensures Inv(Next(s, Advance(t, ok)))
  {
    var s' := Next(s, Advance(t, ok));
    BornKept(s, t, ok);
    HoldersKept(s, t, ok);
    forall id: Id
      ensures Placed(s', id)
    {
      PlaceKept(s, t, ok, id);
    }
    forall id | id in s'.reg.sessions
      ensures Known(s', id)
      ensures s'.drain.Draining? || s'.drain.Drained? ==> Attended(s', id)
    {
      CoverKept(s, t, ok, id);
    }
  }

  lemma BornKept(s: Sys, t: Tid, ok: bool)
    requires Inv(s) && t in s.threads
    ensures var s' := Next(s, Advance(t, ok)); forall u <- s'.threads :: Born(s'.reg, s'.threads[u])
  {
    var s' := Next(s, Advance(t, ok));
    if s.threads[t].Removing? {
      var id := s.threads[t].id;
      assert id in s.reg.sessions ==> id < s.reg.nextId by {
        assert Placed(s, id);
      }
    }
    forall u | u in s'.threads
      ensures Born(s'.reg, s'.threads[u])
    {
      assert u != t ==> Born(s.reg, s.threads[u]);
      assert Born(s.reg, s.threads[t]);
    }
  }

  lemma HoldersKept(s: Sys, t: Tid, ok: bool)
    requires Inv(s) && t in s.threads
    ensures SingleHolder(Next(s, Advance(t, ok)))
  {
    var s' := Next(s, Advance(t, ok));
    assert Born(s.reg, s.threads[t]);
    forall u, v, id: Id | u in s'.threads && v in s'.threads && Holds(s'.threads[u], id) && Holds(s'.threads[v], id)
      ensures u == v
    {
      if s.threads[t] == Removing(id) && id in s.reg.sessions {
        assert !Held(s, id) by { assert Placed(s, id); }
      }
    }
    forall u, v | u in s'.threads && v in s'.threads && s'.threads[u].Publishing? && s'.threads[v] == s'.threads[u]
      ensures u == v
    {
      assert u in s.threads && v in s.threads;
      assert Born(s.reg, s.threads[u]) && Born(s.reg, s.threads[v]);
    }
  }

  /** The same session is held or coming before and after, unless the moving thread holds or publishes it. */
  lemma OthersWitness(s: Sys, s': Sys, t: Tid, id: Id)
    requires OthersSame(s, s', t)
    ensures Held(s', id) ==> Held(s, id) || (t in s'.threads && Holds(s'.threads[t], id))
    ensures Held(s, id) ==> Held(s', id) || Holds(s.threads[t], id)
    ensures Coming(s', id) ==> Coming(s, id) || At(s', t, Publishing(id))
    ensures Coming(s, id) ==> Coming(s', id) || At(s, t, Publishing(id))
    ensures Attended(s, id) ==> Attended(s', id) || Announcing(s.threads[t], id) || s.threads[t] == Removing(id)
    ensures Known(s, id) && (id in s.reg.conns ==> id in s'.reg.conns) ==> Known(s', id) || s.threads[t] == Registering(id)
  {
    if u :| u in s'.threads && Holds(s'.threads[u], id) {
      assert u == t || Holds(s.threads[u], id);
    }
    if u :| u in s.threads && Holds(s.threads[u], id) {
      assert u == t || Holds(s'.threads[u], id);
    }
    if u :| u in s'.threads && s'.threads[u] == Publishing(id) {
      assert u == t || s.threads[u] == Publishing(id);
    }
    if u :| u in s.threads && s.threads[u] == Publishing(id) {
      assert u == t || s'.threads[u] == Publishing(id);
    }
    if u :| u in s.threads && (Announcing(s.threads[u], id) || s.threads[u] == Removing(id)) {
      assert u == t || s'.threads[u] == s.threads[u];
    }
    if u :| u in s.threads && s.threads[u] == Registering(id) {
      assert u == t || s'.threads[u] == Registering(id);
    }
  }

  lemma PlaceKept(s: Sys, t: Tid, ok: bool, id: Id)
    requires Inv(s) && t in s.threads
    ensures Placed(Next(s, Advance(t, ok)), id)
  {
    var s' := Next(s, Advance(t, ok));
    var pc := s.threads[t];
    assert Placed(s, id);
    assert Born(s.reg, pc);
    if pc.Starting? {
      StartPlaces(s, t, ok, id);
    } else if pc == Publishing(id) {
      PublishPlaces(s, t, ok);
    } else if pc == Removing(id) {
      RemovePlaces(s, t, ok);
    } else if Holds(pc, id) {
      HolderPlaces(s, t, ok, id);
    } else {
      OthersWitness(s, s', t, id);
    }
  }

  lemma StartPlaces(s: Sys, t: Tid, ok: bool, id: Id)
    requires Inv(s) && At(s, t, Starting) && Placed(s, id)
    ensures Placed(Next(s, Advance(t, ok)), id)
  {
    var s' := Next(s, Advance(t, ok));
    OthersWitness(s, s', t, id);
    if ok && id == s.reg.nextId {
      assert s'.threads[t] == Publishing(id);
    }
  }

  lemma PublishPlaces(s: Sys, t: Tid, ok: bool)
    requires Inv(s) && t in s.threads && s.threads[t].Publishing? && Placed(s, s.threads[t].id)
    ensures Placed(Next(s, Advance(t, ok)), s.threads[t].id)
  {
    var s', id := Next(s, Advance(t, ok)), s.threads[t].id;
    OthersWitness(s, s', t, id);
    assert Coming(s, id);
    if u :| u in s'.threads && s'.threads[u] == Publishing(id) {
      assert false;
    }
  }

  lemma RemovePlaces(s: Sys, t: Tid, ok: bool)
    requires Inv(s) && t in s.threads && s.threads[t].Removing? && Placed(s, s.threads[t].id)
    ensures Placed(Next(s, Advance(t, ok)), s.threads[t].id)
  {
    var s', id := Next(s, Advance(t, ok)), s.threads[t].id;
    OthersWitness(s, s', t, id);
    if id in s.reg.sessions {
      assert Holds(s'.threads[t], id);
    }
  }

  lemma HolderPlaces(s: Sys, t: Tid, ok: bool, id: Id)
    requires Inv(s) && t in s.threads && Holds(s.threads[t], id) && Placed(s, id)
    ensures Placed(Next(s, Advance(t, ok)), id)
  {
    var s' := Next(s, Advance(t, ok));
    OthersWitness(s, s', t, id);
    assert Held(s, id);
    if s.threads[t].Unregistering? {
      assert Holds(s'.threads[t], id);
    } else if u :| u in s'.threads && Holds(s'.threads[u], id) {
      assert false;
    }
  }

  lemma CoverKept(s: Sys, t: Tid, ok: bool, id: Id)
    requires Inv(s) && t in s.threads && id in Next(s, Advance(t, ok)).reg.sessions
    ensures Known(Next(s, Advance(t, ok)), id)
    ensures s.drain.Draining? || s.drain.Drained? ==> Attended(Next(s, Advance(t, ok)), id)
  {
    var s' := Next(s, Advance(t, ok));
    var pc := s.threads[t];
    OthersWitness(s, s', t, id);
    if pc == Publishing(id) {
      assert s'.threads[t] == Registering(id) && Announcing(s'.threads[t], id);
    } else {
      assert id in s.reg.sessions && Known(s, id);
      assert OnePlace(s, id) by {
        assert Placed(s, id);
      }
      assert Holds(pc, id) ==> Held(s, id);
      assert pc == Removing(id) ==> id !in s'.reg.sessions;
      if pc == Registering(id) { assert s'.threads[t] == Rechecking(id) && Announcing(s'.threads[t], id); }
      if pc == Rechecking(id) && s.reg.shuttingDown { assert s'.threads[t] == Removing(id); }
    }
  }

  // --- The theorems ---

  lemma {:induction false} Reachable(states: seq<Sys>, events: seq<Event>, i: nat)
    requires Run(states, events) && i < |states|
    ensures Inv(states[i])
  {
    if i > 0 {
      Reachable(states, events, i - 1);
      StepKeepsInv(states[i - 1], events[i - 1]);
    }
  }

  /** Whatever the interleaving, no session is closed twice, and none is closed while it is still registered. */
  lemma ClosedAtMostOnce(states: seq<Sys>, events: seq<Event>, i: nat, id: Id)
    requires Run(states, events) && i < |states|
    ensures states[i].reg.closes[id] <= 1
    ensures id in states[i].reg.sessions ==> states[i].reg.closes[id] == 0
  {
    Reachable(states, events, i);
    assert Placed(states[i], id);
  }

  /** The thread is a request that publishes a session, or someone about to close one. */
  ghost predicate Unfinished(pc: Pc) {
    !pc.InitGate? && !pc.Starting? && !pc.DeleteGate? && !pc.Serving?
  }

  /**
   No session survives a drain: once the drain has taken its snapshot and nobody is in the middle of
   publishing or closing a session, the registry is empty and every session ever published has been
   closed exactly once, by the snapshot's worker or by its own handler's recheck.
   */
  lemma NoSessionSurvives(states: seq<Sys>, events: seq<Event>, i: nat, id: Id)
    requires Run(states, events) && i < |states|
    requires states[i].drain.Draining? || states[i].drain.Drained?
    requires forall t <- states[i].threads :: !Unfinished(states[i].threads[t])
    ensures states[i].reg.sessions == {}
    ensures id < states[i].reg.nextId ==> states[i].reg.closes[id] == 1
  {
    Reachable(states, events, i);
    var s := states[i];
    assert forall x <- s.reg.sessions :: Attended(s, x);
    assert Placed(s, id);
  }

  ghost predicate Served(s: Sys, id: Id) {
    exists t :: At(s, t, Serving(id))
  }

  /** Serving starts only with the flag down, and the flag never comes down again. */
  lemma ServingStarts(s: Sys, e: Event, id: Id)
    requires Inv(s) && Enabled(s, e) && s.reg.shuttingDown && Served(Next(s, e), id)
    ensures Served(s, id)
  {
    var s' := Next(s, e);
    var t :| At(s', t, Serving(id));
    assert At(s, t, Serving(id));
  }

  lemma FlagStays(s: Sys, e: Event)
    requires Enabled(s, e) && s.reg.shuttingDown
    ensures Next(s, e).reg.shuttingDown
  {
  }

  /**
   After the flag is up nobody starts to be served: a session that is not being served at that moment,
   because it is still to be created, published, registered or rechecked, is not served at any later one.
   */
  lemma {:induction false} LateSessionIsNeverServed(states: seq<Sys>, events: seq<Event>, i: nat, j: nat, id: Id)
    requires Run(states, events) && i <= j < |states|
    requires states[i].reg.shuttingDown && !Served(states[i], id)
    ensures states[j].reg.shuttingDown && !Served(states[j], id)
    decreases j
  {
    if i < j {
      LateSessionIsNeverServed(states, events, i, j - 1, id);
      Reachable(states, events, j - 1);
      FlagStays(states[j - 1], events[j - 1]);
      if Served(states[j], id) {
        ServingStarts(states[j - 1], events[j - 1], id);
      }
    }
  }

  // --- What must happen ---

  /** The `i`-th event of the run is a step of thread `t`; `ok` is what it finds. */
  ghost predicate Moves(states: seq<Sys>, events: seq<Event>, i: nat, t: Tid, ok: bool) {
    Run(states, events) && i < |events| && events[i] == Advance(t, ok) && t in states[i].threads
  }

  /** The two looks at the flag: up, a new client is turned away and an unserved session is taken back; down, both go on. */
  lemma FlagDecides(states: seq<Sys>, events: seq<Event>, t: Tid, i: nat, ok: bool)
    requires Moves(states, events, i, t, ok)
    ensures var (s, s', pc) := (states[i], states[i + 1], states[i].threads[t]);
      && (pc.InitGate? ==> s'.reg == s.reg && if s.reg.shuttingDown then t !in s'.threads else At(s', t, Starting))
      && (pc.Rechecking? ==> s'.reg == s.reg && At(s', t, if s.reg.shuttingDown then Removing(pc.id) else Serving(pc.id)))
      && (pc.DeleteGate? ==>
            s'.reg == s.reg && if s.reg.shuttingDown && !pc.keep then t !in s'.threads else At(s', t, Removing(pc.id)))
  {
    assert states[i + 1] == Next(states[i], events[i]);
  }

  /** A session that starts is new, is put into the table, then made known to the drain; one that does not start leaves nothing. */
  lemma SessionComesUp(states: seq<Sys>, events: seq<Event>, t: Tid, i: nat, ok: bool)
    requires Moves(states, events, i, t, ok)
    ensures var (r, s', pc) := (states[i].reg, states[i + 1], states[i].threads[t]);
      && (pc.Starting? ==>
            if ok then At(s', t, Publishing(r.nextId)) && s'.reg == r.(nextId := r.nextId + 1) else t !in s'.threads && s'.reg == r)
      && (pc.Publishing? ==> At(s', t, Registering(pc.id)) && s'.reg == r.(sessions := r.sessions + {pc.id}))
      && (pc.Registering? ==> At(s', t, Rechecking(pc.id)) && s'.reg == r.(conns := r.conns + {pc.id}))
  {
    assert states[i + 1] == Next(states[i], events[i]);
  }

  /** Serving ends the request, or, if it fails, takes the session back; whoever takes a session out unregisters and closes it. */
  lemma SessionGoesDown(states: seq<Sys>, events: seq<Event>, t: Tid, i: nat, ok: bool)
    requires Moves(states, events, i, t, ok)
    ensures var (r, s', pc) := (states[i].reg, states[i + 1], states[i].threads[t]);
      && (pc.Serving? ==> s'.reg == r && if ok then t !in s'.threads else At(s', t, Removing(pc.id)))
      && (pc.Removing? ==>
            if pc.id in r.sessions then At(s', t, Unregistering(pc.id)) && s'.reg == r.(sessions := r.sessions - {pc.id})
            else t !in s'.threads && s'.reg == r)
      && (pc.Unregistering? ==> At(s', t, Closing(pc.id)) && s'.reg == r.(conns := r.conns - {pc.id}))
      && (pc.Closing? ==> t !in s'.threads && s'.reg == r.(closes := r.closes[pc.id := r.closes[pc.id] + 1]))
  {
    assert states[i + 1] == Next(states[i], events[i]);
    var r, pc := states[i].reg, states[i].threads[t];
    if pc.Closing? {
      assert r.closes + multiset{pc.id} == r.closes[pc.id := r.closes[pc.id] + 1];
    }
  }

  lemma Extend(states: seq<Sys>, events: seq<Event>, e: Event) returns (states': seq<Sys>, events': seq<Event>)
    requires Run(states, events) && Enabled(states[|states| - 1], e)
    ensures Run(states', events') && states' == states + [Next(states[|states| - 1], e)]
  {
    states', events' := states + [Next(states[|states| - 1], e)], events + [e];
  }

  /** A new client is served: from any point of any run with the flag down, its session can be published, known and served. */
  lemma ClientIsServed(states: seq<Sys>, events: seq<Event>, t: Tid) returns (states': seq<Sys>, events': seq<Event>)
    requires Run(states, events) && t !in states[|states| - 1].threads && !states[|states| - 1].reg.shuttingDown
    ensures Run(states', events') && states <= states'
    ensures var (s, s') := (states[|states| - 1], states'[|states'| - 1]);
      var id := s.reg.nextId;
      && s'.threads == s.threads[t := Serving(id)]
      && s'.reg == s.reg.(nextId := id + 1, sessions := s.reg.sessions + {id}, conns := s.reg.conns + {id})
  {
    states', events' := Extend(states, events, Initialize(t));
    states', events' := Extend(states', events', Advance(t, true));
    states', events' := Extend(states', events', Advance(t, true));
    states', events' := Extend(states', events', Advance(t, true));
    states', events' := Extend(states', events', Advance(t, true));
    states', events' := Extend(states', events', Advance(t, true));
  }

  /** A session deleted is closed: out of both tables, its close function run once more than before. */
  lemma DeletedIsClosed(states: seq<Sys>, events: seq<Event>, t: Tid, id: Id) returns (states': seq<Sys>, events': seq<Event>)
    requires Run(states, events) && t !in states[|states| - 1].threads && !states[|states| - 1].reg.shuttingDown
    requires id in states[|states| - 1].reg.sessions
    ensures Run(states', events') && states <= states'
    ensures var (r, r') := (states[|states| - 1].reg, states'[|states'| - 1].reg);
      id !in r'.sessions && id !in r'.conns && r'.closes[id] == 1 && r'.sessions == r.sessions - {id}
  {
    Reachable(states, events, |states| - 1);
    assert Placed(states[|states| - 1], id);
    states', events' := Extend(states, events, Delete(t, id, false));
    states', events' := Extend(states', events', Advance(t, true));
    states', events' := Extend(states', events', Advance(t, true));
    states', events' := Extend(states', events', Advance(t, true));
    states', events' := Extend(states', events', Advance(t, true));
  }
}
