/** What the shared-child supervisor keeps across every restart and every interleaving of its clients. */
module SharedChildLaws {
  import opened Basics
  import opened SharedChild

  // --- The invariant ---

  /** The supervisor's own fields. */
  ghost predicate Fields(s: Shared) {
    && s.generation == s.started && |s.sent| == s.nextRequest
    && (s.child.Some? ==> 1 <= s.child.value == s.generation)
    && (s.initResp.Some? ==> s.child.Some? && s.initResp.value.producer == s.child.value)
    && (s.initialized <==> s.epoch in s.flags)
    && (forall e <- s.flags :: e <= s.epoch)
    && (forall k <- s.fates :: k < |s.sent|)
  }

  /** Every child started has its birth epoch, past or present. */
  ghost predicate Births(s: Shared) {
    && (forall c <- s.births :: 1 <= c <= s.started && s.births[c] <= s.epoch)
    && (s.child.Some? ==> s.child.value in s.births && s.births[s.child.value] == s.epoch)
  }

  /** The k-th request carries the counter value k + 1, and the generation of the child it goes to. */
  ghost predicate Requests(s: Shared) {
    forall k | 0 <= k < |s.sent| :: s.sent[k].request == RequestId(s.sent[k].child, k + 1) && 1 <= s.sent[k].child <= s.started
  }

  ghost predicate OwnSent(s: Shared, t: Tid, child: Child, index: nat) {
    index < |s.sent| && s.sent[index].caller == t && s.sent[index].child == child
  }

  /** The reply carries the caller's id, and answers the caller's own request or comes from the cache. */
  ghost predicate OwnReply(s: Shared, t: Tid, msg: Msg, reply: Reply, sentAs: Option<nat>) {
    && reply.id == msg.id && 1 <= reply.producer <= s.started
    && (sentAs.None? ==> msg.kind == INITIALIZE)
    && (sentAs.Some? ==> OwnSent(s, t, reply.producer, sentAs.value) && reply.request == s.sent[sentAs.value].request)
  }

  ghost predicate ThreadOk(s: Shared, t: Tid, pc: Pc) {
    match pc
    case Rewriting(_, child, generation) => 1 <= child == generation <= s.started
    case Awaiting(msg, child, index) =>
      OwnSent(s, t, child, index) && index !in s.fates && s.sent[index].initialize == (msg.kind == INITIALIZE)
    case Storing(msg, child, index) => msg.kind == INITIALIZE && OwnSent(s, t, child, index)
    case Returning(msg, Answered(reply, sentAs)) => OwnReply(s, t, msg, reply, sentAs)
    case NotifyChild(_, flag) => flag.Some? ==> flag.value in s.flags
    case NotifySend(_, child, flag) =>
      child in s.births && (flag.Some? ==> flag.value in s.flags && flag.value <= s.births[child])
    case _ => true
  }

  /** The flag epoch a thread still carries towards a child. */
  ghost function FlagOf(pc: Pc): Option<nat> {
    match pc
    case NotifyChild(_, flag) => flag
    case NotifySend(_, _, flag) => flag
    case _ => None
  }

  /** Each raised flag has at most one carrier: a thread, or a notification already sent. */
  ghost predicate Carriers(s: Sys) {
    && (forall t, u | t in s.threads && u in s.threads && t != u ::
          FlagOf(s.threads[t]).Some? ==> FlagOf(s.threads[t]) != FlagOf(s.threads[u]))
    && (forall t, i | t in s.threads && 0 <= i < |s.sh.forwards| :: FlagOf(s.threads[t]) != Some(s.sh.forwards[i].flagEpoch))
    && (forall i, j | 0 <= i < j < |s.sh.forwards| :: s.sh.forwards[i].flagEpoch != s.sh.forwards[j].flagEpoch)
  }

  ghost predicate ForwardOk(s: Shared, f: Forward) {
    f.child in s.births && f.flagEpoch in s.flags && f.flagEpoch <= s.births[f.child]
  }

  ghost predicate InitLock(s: Sys) {
    && (s.initMu.Some? ==> s.initMu.value in s.threads)
    && (forall t <- s.threads :: HoldsInit(s.threads[t]) <==> s.initMu == Some(t))
  }

  ghost predicate Inv(s: Sys) {
    && Fields(s.sh) && Births(s.sh) && Requests(s.sh) && InitLock(s) && Carriers(s)
    && (forall t <- s.threads :: ThreadOk(s.sh, t, s.threads[t]))
    && (forall f <- s.sh.forwards :: ForwardOk(s.sh, f))
  }

  // --- Parts of a step ---

  /** Nothing on record is lost or changed. */
  ghost predicate Extends(s: Shared, s': Shared) {
    && s.started <= s'.started && s.sent <= s'.sent && s.flags <= s'.flags && s.epoch <= s'.epoch
    && s.forwards <= s'.forwards && (forall k <- s.fates :: k in s'.fates && s'.fates[k] == s.fates[k])
    && (forall c <- s.births :: c in s'.births && s'.births[c] == s.births[c])
    && (s.draining ==> s'.draining && s'.started == s.started)
  }

  /** Only the thread's own requests are settled. */
  ghost predicate SettlesOwn(s: Shared, s': Shared, t: Tid) {
    forall k <- s'.fates :: k in s.fates || (k < |s.sent| && s.sent[k].caller == t)
  }

  lemma StepSettles(s: Shared, t: Tid, pc: Pc, x: Input)
    requires Indexed(s, pc) && Fields(s) && ThreadOk(s, t, pc)
    ensures var s' := Step(s, t, pc, x).0;
      SettlesOwn(s, s', t) && forall k <- s.fates :: k in s'.fates && s'.fates[k] == s.fates[k]
  {
  }

  lemma StepGrows(s: Shared, t: Tid, pc: Pc, x: Input)
    requires Indexed(s, pc) && Fields(s) && Births(s)
    ensures var s' := Step(s, t, pc, x).0;
      && s.started <= s'.started && s.sent <= s'.sent && s.flags <= s'.flags && s.epoch <= s'.epoch && s.forwards <= s'.forwards
      && (forall c <- s.births :: c in s'.births && s'.births[c] == s.births[c])
      && (s.draining ==> s'.draining && s'.started == s.started)
  {
  }

  lemma StepExtends(s: Shared, t: Tid, pc: Pc, x: Input)
    requires Indexed(s, pc) && Fields(s) && Births(s) && ThreadOk(s, t, pc)
    ensures Extends(s, Step(s, t, pc, x).0) && SettlesOwn(s, Step(s, t, pc, x).0, t)
  {
    StepGrows(s, t, pc, x);
    StepSettles(s, t, pc, x);
  }

  lemma StepBirths(s: Shared, t: Tid, pc: Pc, x: Input)
    requires Indexed(s, pc) && Fields(s) && Births(s)
    ensures Births(Step(s, t, pc, x).0)
  {
  }

  lemma StepFields(s: Shared, t: Tid, pc: Pc, x: Input)
    requires Indexed(s, pc) && Fields(s) && Births(s) && ThreadOk(s, t, pc)
    ensures var s' := Step(s, t, pc, x).0; Fields(s') && Births(s')
  {
    StepBirths(s, t, pc, x);
  }

  lemma StepRequests(s: Shared, t: Tid, pc: Pc, x: Input)
    requires Indexed(s, pc) && Fields(s) && Requests(s) && ThreadOk(s, t, pc)
    ensures Requests(Step(s, t, pc, x).0)
  {
  }

  lemma StepOwn(s: Shared, t: Tid, pc: Pc, x: Input)
    requires Indexed(s, pc) && Fields(s) && Births(s) && Requests(s) && ThreadOk(s, t, pc)
    ensures var (s', pc') := Step(s, t, pc, x); pc'.Some? ==> ThreadOk(s', t, pc'.value)
  {
  }

  lemma OthersOwn(s: Shared, s': Shared, t: Tid, u: Tid, pc: Pc)
    requires Extends(s, s') && SettlesOwn(s, s', t) && u != t && ThreadOk(s, u, pc)
    ensures ThreadOk(s', u, pc)
  {
  }

  lemma ForwardsKept(s: Shared, s': Shared)
    requires Extends(s, s') && s'.forwards == s.forwards && forall f <- s.forwards :: ForwardOk(s, f)
    ensures forall f <- s'.forwards :: ForwardOk(s', f)
  {
  }

  lemma StepForwards(s: Shared, t: Tid, pc: Pc, x: Input)
    requires Indexed(s, pc) && Fields(s) && Births(s) && ThreadOk(s, t, pc) && forall f <- s.forwards :: ForwardOk(s, f)
    ensures var s' := Step(s, t, pc, x).0; forall f <- s'.forwards :: ForwardOk(s', f)
  {
    var s' := Step(s, t, pc, x).0;
    StepExtends(s, t, pc, x);
    forall f | f in s'.forwards
      ensures ForwardOk(s', f)
    {
      if f in s.forwards {
        assert ForwardOk(s, f);
      } else {
        assert pc.NotifySend? && f == Forward(pc.child, pc.flag.value);
      }
    }
  }

  /** A step passes its flag on, gives it to a notification, drops it, or raises a new one. */
  lemma StepFlags(s: Shared, t: Tid, pc: Pc, x: Input)
    requires Indexed(s, pc) && Fields(s)
    ensures FlagMoves(s, pc, Step(s, t, pc, x).0, Step(s, t, pc, x).1)
  {
  }

  ghost predicate FlagMoves(s: Shared, pc: Pc, s': Shared, pc': Option<Pc>) {
    && (s'.forwards == s.forwards
        || (FlagOf(pc).Some? && pc.NotifySend? && s'.forwards == s.forwards + [Forward(pc.child, FlagOf(pc).value)]
            && pc'.Some? && FlagOf(pc'.value).None?))
    && (pc'.Some? && FlagOf(pc'.value).Some? ==>
          FlagOf(pc'.value) == FlagOf(pc) || (FlagOf(pc'.value) == Some(s.epoch) && s.epoch !in s.flags))
  }

  lemma CarriersKept(s: Sys, t: Tid, sh': Shared, pc': Option<Pc>)
    requires Carriers(s) && t in s.threads && FlagMoves(s.sh, s.threads[t], sh', pc')
    requires forall u <- s.threads :: FlagOf(s.threads[u]).Some? ==> FlagOf(s.threads[u]).value in s.sh.flags
    requires forall f <- s.sh.forwards :: f.flagEpoch in s.sh.flags
    ensures Carriers(Moved(s, t, sh', pc'))
  {
    assert forall i | 0 <= i < |s.sh.forwards| :: s.sh.forwards[i] in s.sh.forwards;
  }

  lemma FlagsKnown(s: Sys)
    requires Inv(s)
    ensures forall u <- s.threads :: FlagOf(s.threads[u]).Some? ==> FlagOf(s.threads[u]).value in s.sh.flags
    ensures forall f <- s.sh.forwards :: f.flagEpoch in s.sh.flags
  {
    forall u | u in s.threads
      ensures FlagOf(s.threads[u]).Some? ==> FlagOf(s.threads[u]).value in s.sh.flags
    {
      assert ThreadOk(s.sh, u, s.threads[u]);
    }
  }

  lemma LocksWaitedFor(s: Shared, t: Tid, pc: Pc, x: Input)
    requires Indexed(s, pc)
    ensures var pc' := Step(s, t, pc, x).1; pc'.Some? && HoldsInit(pc'.value) ==> HoldsInit(pc) || WaitsForInit(pc)
  {
  }

  lemma InitLockKept(s: Sys, t: Tid, sh': Shared, pc': Option<Pc>)
    requires InitLock(s) && t in s.threads
    requires pc'.Some? && HoldsInit(pc'.value) ==> HoldsInit(s.threads[t]) || s.initMu == None
    ensures InitLock(Moved(s, t, sh', pc'))
  {
  }

  lemma AdvanceKeepsInv(s: Sys, t: Tid, x: Input)
    requires Inv(s) && Enabled(s, Advance(t, x))
    ensures Inv(Next(s, Advance(t, x)))
  {
    var pc := s.threads[t];
    var (sh', pc') := Step(s.sh, t, pc, x);
    assert ThreadOk(s.sh, t, pc);
    StepExtends(s.sh, t, pc, x);
    StepFields(s.sh, t, pc, x);
    StepRequests(s.sh, t, pc, x);
    StepForwards(s.sh, t, pc, x);
    StepFlags(s.sh, t, pc, x);
    StepOwn(s.sh, t, pc, x);
    LocksWaitedFor(s.sh, t, pc, x);
    FlagsKnown(s);
    assert pc'.Some? ==> ThreadOk(sh', t, pc'.value);
    MovedKeepsInv(s, t, sh', pc');
  }

  lemma MovedKeepsInv(s: Sys, t: Tid, sh': Shared, pc': Option<Pc>)
    requires Inv(s) && t in s.threads && (pc'.Some? ==> ThreadOk(sh', t, pc'.value))
    requires Extends(s.sh, sh') && SettlesOwn(s.sh, sh', t) && Fields(sh') && Births(sh') && Requests(sh') && forall f <- sh'.forwards :: ForwardOk(sh', f)
    requires FlagMoves(s.sh, s.threads[t], sh', pc')
    requires pc'.Some? && HoldsInit(pc'.value) ==> HoldsInit(s.threads[t]) || s.initMu == None
    ensures Inv(Moved(s, t, sh', pc'))
  {
    var s' := Moved(s, t, sh', pc');
    FlagsKnown(s);
    InitLockKept(s, t, sh', pc');
    CarriersKept(s, t, sh', pc');
    forall u | u in s'.threads
      ensures ThreadOk(s'.sh, u, s'.threads[u])
    {
      if u != t {
        OthersOwn(s.sh, sh', t, u, s.threads[u]);
      }
    }
  }

  /** A request arrives holding nothing. */
  lemma ArrivalKeepsInv(s: Sys, t: Tid, pc: Pc)
    requires Inv(s) && t !in s.threads && (pc.Admitting? || pc.NotifyEntered?)
    ensures Inv(s.(threads := s.threads[t := pc]))
  {
  }

  /** A child exits, the drain begins, or the supervisor is closed. */
  lemma OutsideKeepsInv(s: Sys, e: Event)
    requires Inv(s) && Enabled(s, e) && (e.Exit? || e.BeginDrain? || e.CloseSupervisor?)
    ensures Inv(Next(s, e))
  {
    var s' := Next(s, e);
    assert Fields(s'.sh) && Births(s'.sh) && Requests(s'.sh) && Extends(s.sh, s'.sh);
    ForwardsKept(s.sh, s'.sh);
    forall u | u in s'.threads
      ensures ThreadOk(s'.sh, u, s'.threads[u])
    {
      OthersOwn(s.sh, s'.sh, u + 1, u, s.threads[u]);
    }
  }

  lemma StepKeepsInv(s: Sys, e: Event)
    requires Inv(s) && Enabled(s, e)
    ensures Inv(Next(s, e))
  {
    match e {
      case Call(t, msg) => ArrivalKeepsInv(s, t, Admitting(msg));
      case Notify(t, msg) => ArrivalKeepsInv(s, t, NotifyEntered(msg));
      case Advance(t, x) => AdvanceKeepsInv(s, t, x);
      case _ => OutsideKeepsInv(s, e);
    }
  }

  lemma {:induction false} Reachable(states: seq<Sys>, events: seq<Event>, i: nat)
    requires Run(states, events) && i < |states|
    ensures Inv(states[i])
  {
    if i > 0 {
      Reachable(states, events, i - 1);
      StepKeepsInv(states[i - 1], events[i - 1]);
    }
  }

  // --- The theorems ---

  /** A cached initialize response is the current child's own, and the generation counts the children started. */
  lemma CacheIsCurrent(states: seq<Sys>, events: seq<Event>, i: nat)
    requires Run(states, events) && i < |states|
    ensures var s := states[i].sh;
      && s.generation == s.started && (s.child.Some? ==> s.child.value == s.generation)
      && (s.initResp.Some? ==> s.child.Some? && s.initResp.value.producer == s.child.value)
  {
    Reachable(states, events, i);
  }

  /** Rewritten request ids never repeat, across every restart. */
  lemma RequestIdsNeverRepeat(states: seq<Sys>, events: seq<Event>, i: nat, k: nat, m: nat)
    requires Run(states, events) && i < |states| && k < m < |states[i].sh.sent|
    ensures states[i].sh.sent[k].request != states[i].sh.sent[m].request
  {
    Reachable(states, events, i);
    var sent := states[i].sh.sent;
    if sent[k].request == sent[m].request {
      RequestIdInjective(sent[k].child, k + 1, sent[m].child, m + 1);
    }
  }

  /**
   Every caller gets its own id back; unless the reply came from the initialize cache, it is the reply of
   the child the caller's own rewritten request was sent to, to that very request.
   */
  lemma ReplyIsOwn(states: seq<Sys>, events: seq<Event>, i: nat, t: Tid)
    requires Run(states, events) && i < |states| && t in states[i].threads
    requires states[i].threads[t].Returning? && states[i].threads[t].outcome.Answered?
    ensures var (msg, o) := (states[i].threads[t].msg, states[i].threads[t].outcome);
      OwnReply(states[i].sh, t, msg, o.reply, o.sentAs)
  {
    Reachable(states, events, i);
    assert ThreadOk(states[i].sh, t, states[i].threads[t]);
  }

  lemma EventExtends(s: Sys, e: Event)
    requires Inv(s) && Enabled(s, e)
    ensures Extends(s.sh, Next(s, e).sh)
  {
    if e.Advance? {
      assert ThreadOk(s.sh, e.t, s.threads[e.t]);
      StepExtends(s.sh, e.t, s.threads[e.t], e.x);
    }
  }

  lemma RunExtends(states: seq<Sys>, events: seq<Event>, j: nat)
    requires Run(states, events) && 0 < j < |states|
    ensures Extends(states[j - 1].sh, states[j].sh)
  {
    Reachable(states, events, j - 1);
    EventExtends(states[j - 1], events[j - 1]);
  }

  /** No child is started once the drain has begun. */
  lemma {:induction false} NoStartWhileDraining(states: seq<Sys>, events: seq<Event>, i: nat, j: nat)
    requires Run(states, events) && i <= j < |states| && states[i].sh.draining
    ensures states[j].sh.draining && states[j].sh.started == states[i].sh.started
    decreases j
  {
    if i < j {
      NoStartWhileDraining(states, events, i, j - 1);
      RunExtends(states, events, j);
    }
  }

  /** The notification was let through by a flag raised before the child it went to was started in its epoch. */
  ghost predicate Stale(s: Shared, f: Forward) {
    f.child in s.births && f.flagEpoch < s.births[f.child]
  }

  /**
   At most one initialized notification per child, as far as it is true: of two sent to the same child,
   one was let through by a flag of an earlier epoch, raised before the previous child was dropped.
   */
  lemma InitializedTwiceOnlyWhenStale(states: seq<Sys>, events: seq<Event>, i: nat, k: nat, m: nat)
    requires Run(states, events) && i < |states| && k < m < |states[i].sh.forwards|
    requires states[i].sh.forwards[k].child == states[i].sh.forwards[m].child
    ensures Stale(states[i].sh, states[i].sh.forwards[k]) || Stale(states[i].sh, states[i].sh.forwards[m])
  {
    Reachable(states, events, i);
    var s := states[i].sh;
    assert ForwardOk(s, s.forwards[k]) && ForwardOk(s, s.forwards[m]);
  }

  // --- When a child can be told again ---

  ghost predicate Carried(s: Sys, flag: nat) {
    exists t :: t in s.threads && FlagOf(s.threads[t]) == Some(flag)
  }

  lemma EventFlags(s: Sys, e: Event)
    requires Inv(s) && Enabled(s, e) && s.sh.initialized && Next(s, e).sh.epoch == s.sh.epoch
    ensures var s' := Next(s, e);
      && s'.sh.initialized && (forall f: nat :: Carried(s', f) ==> Carried(s, f))
      && (forall m | |s.sh.forwards| <= m < |s'.sh.forwards| :: Carried(s, s'.sh.forwards[m].flagEpoch))
  {
    var s' := Next(s, e);
    StepKeepsInv(s, e);
    EventExtends(s, e);
    if e.Advance? {
      StepFlags(s.sh, e.t, s.threads[e.t], e.x);
    }
    forall f: nat | Carried(s', f)
      ensures Carried(s, f)
    {
      var t :| t in s'.threads && FlagOf(s'.threads[t]) == Some(f);
      if !e.Advance? || e.t != t {
        assert t in s.threads && FlagOf(s.threads[t]) == Some(f);
      }
    }
  }

  lemma StepAt(states: seq<Sys>, events: seq<Event>, j: nat)
    requires Run(states, events) && 0 < j < |states|
    ensures Inv(states[j - 1]) && Enabled(states[j - 1], events[j - 1]) && states[j] == Next(states[j - 1], events[j - 1])
  {
    Reachable(states, events, j - 1);
  }

  lemma RunFlags(states: seq<Sys>, events: seq<Event>, j: nat)
    requires Run(states, events) && 0 < j < |states|
    requires states[j - 1].sh.initialized && states[j].sh.epoch == states[j - 1].sh.epoch
    ensures states[j].sh.initialized && (forall f: nat :: Carried(states[j], f) ==> Carried(states[j - 1], f))
    ensures forall m | |states[j - 1].sh.forwards| <= m < |states[j].sh.forwards| ::
              Carried(states[j - 1], states[j].sh.forwards[m].flagEpoch)
  {
    StepAt(states, events, j);
    EventFlags(states[j - 1], events[j - 1]);
  }

  /**
   While the flag is up nobody new is let through: until the epoch ends, every notification that reaches
   any child was already on its way, with its flag, when the flag was up.
   */
  lemma {:induction false} NobodyNewWhileUp(states: seq<Sys>, events: seq<Event>, i: nat, j: nat)
    requires Run(states, events) && i <= j < |states|
    requires states[i].sh.initialized && states[j].sh.epoch == states[i].sh.epoch
    ensures states[j].sh.initialized && states[i].sh.forwards <= states[j].sh.forwards
    ensures forall f: nat :: Carried(states[j], f) ==> Carried(states[i], f)
    ensures forall m | |states[i].sh.forwards| <= m < |states[j].sh.forwards| :: Carried(states[i], states[j].sh.forwards[m].flagEpoch)
    decreases j
  {
    if i < j {
      RunExtends(states, events, j);
      EpochsGrow(states, events, i, j - 1);
      NobodyNewWhileUp(states, events, i, j - 1);
      RunFlags(states, events, j);
    }
  }

  lemma {:induction false} EpochsGrow(states: seq<Sys>, events: seq<Event>, i: nat, j: nat)
    requires Run(states, events) && i <= j < |states|
    ensures states[i].sh.epoch <= states[j].sh.epoch
    decreases j
  {
    if i < j {
      EpochsGrow(states, events, i, j - 1);
      RunExtends(states, events, j);
    }
  }

  ghost predicate Live(s: Shared) {
    s.child.Some? && s.child.value !in s.exited
  }

  /**
   While the flag is down, whatever the current child has been told so far came from earlier epochs, and
   any client can tell it once more: the run can go on to the same child being told, even during a drain.
   */
  lemma ToldAgainWhileDown(states: seq<Sys>, events: seq<Event>, t: Tid) returns (states': seq<Sys>, events': seq<Event>)
    requires Run(states, events) && t !in states[|states| - 1].threads
    requires var sh := states[|states| - 1].sh; Live(sh) && !sh.initialized
    ensures Run(states', events') && states <= states'
    ensures var (sh, sh') := (states[|states| - 1].sh, states'[|states'| - 1].sh);
      && sh'.forwards == sh.forwards + [Forward(sh.child.value, sh.epoch)]
      && forall f <- sh.forwards | f.child == sh.child.value :: Stale(sh, f)
  {
    Reachable(states, events, |states| - 1);
    states', events' := NotifyAll(states, events, t);
  }

  // --- The stale case is real ---

  lemma Extend(states: seq<Sys>, events: seq<Event>, e: Event) returns (states': seq<Sys>, events': seq<Event>)
    requires Run(states, events) && Enabled(states[|states| - 1], e)
    ensures Run(states', events') && states' == states + [Next(states[|states| - 1], e)]
  {
    states', events' := states + [Next(states[|states| - 1], e)], events + [e];
  }

  /** A first call starts child 1, which then exits unnoticed. */
  lemma FirstChildExits() returns (states: seq<Sys>, events: seq<Event>)
    ensures Run(states, events)
    ensures var s := states[|states| - 1];
      s.sh == Shared(false, Some(1), 1, 0, None, false, 1, {1}, 0, map[1 := 0], {}, [], [], map[])
      && s.threads.Keys == {0}
  {
    var go := Input(true, true, Answer, true);
    states, events := [Sys(Shared(false, None, 0, 0, None, false, 0, {}, 0, map[], {}, [], [], map[]), None, map[])], [];
    states, events := Extend(states, events, Call(0, Msg("1", "tools/list", "")));
    states, events := Extend(states, events, Advance(0, go));
    states, events := Extend(states, events, Advance(0, go));
    states, events := Extend(states, events, Advance(0, go));
    states, events := Extend(states, events, Advance(0, go));
    states, events := Extend(states, events, Exit(1));
  }

  /** A thread that has not arrived yet notifies: raise the flag, get the child, send. */
  lemma NotifyAll(states: seq<Sys>, events: seq<Event>, t: Tid) returns (states': seq<Sys>, events': seq<Event>)
    requires Run(states, events) && t !in states[|states| - 1].threads
    requires var sh := states[|states| - 1].sh; (!sh.draining || Live(sh)) && !sh.initialized
    ensures Run(states', events') && states <= states'
    ensures var (s, s') := (states[|states| - 1], states'[|states'| - 1]);
      var flagged := s.sh.(initialized := true, flags := s.sh.flags + {s.sh.epoch});
      var (sh, got) := ChildForRequest(flagged, true);
      && got.Some? && s'.sh == sh.(forwards := sh.forwards + [Forward(got.value.0, s.sh.epoch)])
      && s'.threads.Keys == s.threads.Keys + {t}
  {
    var go := Input(true, true, Answer, true);
    states', events' := Extend(states, events, Notify(t, Msg("", INITIALIZED, "")));
    states', events' := Extend(states', events', Advance(t, go));
    states', events' := Extend(states', events', Advance(t, go));
    states', events' := Extend(states', events', Advance(t, go));
  }

  /** So a child can be told twice that the session is initialized: the first sender's flag was raised for its predecessor. */
  lemma OneChildToldTwice() returns (states: seq<Sys>, events: seq<Event>)
    ensures Run(states, events) && states[|states| - 1].sh.forwards == [Forward(2, 0), Forward(2, 1)]
  {
    states, events := FirstChildExits();
    states, events := NotifyAll(states, events, 1);
    assert states[|states| - 1].sh == Shared(false, Some(2), 2, 0, None, false, 2, {1}, 1, map[1 := 0, 2 := 1], {0}, [],
                                             [Forward(2, 0)], map[]);
    states, events := NotifyAll(states, events, 2);
  }
}
