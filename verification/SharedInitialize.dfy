/** How often one shared child is asked to initialize, and when it may be asked again. */
module SharedInitialize {
  import opened Basics
  import opened SharedChild
  import opened SharedChildLaws

  // --- Vocabulary ---

  /** The k-th request was an initialize to this child. */
  ghost predicate Initialize(s: Shared, k: nat, c: Child) {
    k < |s.sent| && s.sent[k].initialize && s.sent[k].child == c
  }

  /** It has ended, and not because its caller went away. */
  ghost predicate Ended(s: Shared, k: nat) {
    k in s.fates && s.fates[k] != Cancelled
  }

  /** An initialize to this child was answered, or broke. */
  ghost predicate Spent(s: Shared, c: Child) {
    exists k :: Initialize(s, k, c) && Ended(s, k)
  }

  /** Where the one holder of the initialize lock is. */
  ghost function Holder(s: Sys): Option<Pc> {
    if s.initMu.Some? && s.initMu.value in s.threads then Some(s.threads[s.initMu.value]) else None
  }

  /** The holder is about to cache this child's answer, or to drop the child. */
  ghost predicate Settling(h: Option<Pc>, c: Child) {
    h.Some? && (h.value.Storing? || h.value.Discarding?) && h.value.child == c
  }

  // --- The invariant ---

  ghost predicate CurrentOk(s: Shared, h: Option<Pc>) {
    s.child.Some? && Spent(s, s.child.value) ==> s.initResp.Some? || Settling(h, s.child.value)
  }

  ghost predicate HolderOk(s: Shared, h: Option<Pc>) {
    h.Some? ==>
      && (h.value.ChildWanted? ==> s.initResp.None?)
      && (h.value.Rewriting? || h.value.Awaiting? ==> !Spent(s, h.value.child))
  }

  /** Only the holder's own initialize is still on its way. */
  ghost predicate OneOpen(s: Shared, h: Option<Pc>) {
    forall k | 0 <= k < |s.sent| && s.sent[k].initialize && k !in s.fates :: h.Some? && h.value.Awaiting? && h.value.index == k
  }

  ghost predicate AgainOk(s: Shared, k: nat, m: nat) {
    k < m < |s.sent| && s.sent[k].initialize && s.sent[m].initialize && s.sent[k].child == s.sent[m].child ==>
      k in s.fates && s.fates[k] == Cancelled
  }

  /** A later initialize to the same child was sent only after every earlier one had been cancelled. */
  ghost predicate Ordered(s: Shared) {
    forall k: nat, m: nat :: AgainOk(s, k, m)
  }

  ghost predicate InitOk(s: Sys) {
    CurrentOk(s.sh, Holder(s)) && HolderOk(s.sh, Holder(s)) && OneOpen(s.sh, Holder(s)) && Ordered(s.sh)
  }

  // --- What a step does ---

  /** Spent depends on the record only. */
  lemma SpentSame(s: Shared, s': Shared)
    requires s'.sent == s.sent && s'.fates == s.fates
    ensures forall c :: Spent(s', c) == Spent(s, c)
  {
    forall c
      ensures Spent(s', c) == Spent(s, c)
    {
      assert forall k: nat :: Initialize(s', k, c) == Initialize(s, k, c) && Ended(s', k) == Ended(s, k);
    }
  }

  /** A child not started yet is not spent. */
  lemma NewChildFresh(s: Shared, c: Child)
    requires Requests(s) && c > s.started
    ensures !Spent(s, c)
  {
  }

  /** What a step leaves of the child and of its cached response. */
  ghost predicate CacheMoves(s: Shared, pc: Pc, s': Shared, pc': Option<Pc>) {
    && (s'.child == s.child || s'.child == None || s'.child == Some(s.started + 1))
    && (s'.child == s.child && s.child.Some? ==> s'.initResp == s.initResp || s'.initResp.Some?)
    && (!HoldsInit(pc) ==> s'.initResp == s.initResp || s'.initResp == None)
    && (pc.Storing? && s'.child == Some(pc.child) ==> s'.initResp.Some?)
    && (pc.Discarding? ==> s'.child != Some(pc.child))
    && (pc'.Some? && HoldsInit(pc'.value) ==>
          && (pc'.value.ChildWanted? ==> s'.initResp.None?)
          && (pc'.value.Rewriting? ==> HoldsInit(pc) && pc.ChildWanted? && s'.child == Some(pc'.value.child))
          && (pc'.value.Awaiting? ==> pc.Rewriting?))
  }

  lemma StepCache(s: Shared, t: Tid, pc: Pc, x: Input)
    requires Indexed(s, pc) && Fields(s) && ThreadOk(s, t, pc)
    ensures CacheMoves(s, pc, Step(s, t, pc, x).0, Step(s, t, pc, x).1)
  {
  }

  lemma StepRecord(s: Shared, t: Tid, pc: Pc, x: Input)
    requires Indexed(s, pc) && !pc.Rewriting? && !pc.Awaiting?
    ensures Step(s, t, pc, x).0.sent == s.sent && Step(s, t, pc, x).0.fates == s.fates
  {
  }

  /** The lock passes from nobody to the mover, from the mover to nobody, or stays where it is. */
  lemma HolderMoves(s: Sys, t: Tid, sh': Shared, pc': Option<Pc>)
    requires InitLock(s) && t in s.threads && (pc'.Some? && HoldsInit(pc'.value) ==> HoldsInit(s.threads[t]) || s.initMu == None)
    ensures Holder(Moved(s, t, sh', pc')) ==
            if pc'.Some? && HoldsInit(pc'.value) then pc' else if HoldsInit(s.threads[t]) then None else Holder(s)
    ensures HoldsInit(s.threads[t]) ==> Holder(s) == Some(s.threads[t])
    ensures pc'.Some? && HoldsInit(pc'.value) && !HoldsInit(s.threads[t]) ==> Holder(s) == None
  {
  }

  /** A step that neither sends nor settles a request. */
  lemma QuietStepKeeps(s: Shared, pc: Pc, h: Option<Pc>, s': Shared, pc': Option<Pc>, h': Option<Pc>)
    requires CurrentOk(s, h) && HolderOk(s, h) && OneOpen(s, h) && Ordered(s) && Requests(s)
    requires CacheMoves(s, pc, s', pc') && s'.sent == s.sent && s'.fates == s.fates && !pc.Awaiting? && !pc.Rewriting?
    requires h' == if pc'.Some? && HoldsInit(pc'.value) then pc' else if HoldsInit(pc) then None else h
    requires HoldsInit(pc) ==> h == Some(pc)
    requires pc'.Some? && HoldsInit(pc'.value) && !HoldsInit(pc) ==> h == None
    ensures CurrentOk(s', h') && HolderOk(s', h') && OneOpen(s', h') && Ordered(s')
  {
    SpentSame(s, s');
    NewChildFresh(s, s.started + 1);
    assert forall k: nat, m: nat :: AgainOk(s, k, m) ==> AgainOk(s', k, m);
  }

  /** A request is sent. */
  lemma RewriteKeeps(s: Shared, t: Tid, pc: Pc, h: Option<Pc>, h': Option<Pc>)
    requires CurrentOk(s, h) && HolderOk(s, h) && OneOpen(s, h) && Ordered(s) && Fields(s) && pc.Rewriting?
    requires HoldsInit(pc) ==> h == Some(pc)
    requires var (s', pc') := Rewrite(s, t, pc.msg, pc.child, pc.generation); h' == if HoldsInit(pc) then Some(pc') else h
    ensures var s' := Rewrite(s, t, pc.msg, pc.child, pc.generation).0;
      CurrentOk(s', h') && HolderOk(s', h') && OneOpen(s', h') && Ordered(s')
  {
    var (s', pc') := Rewrite(s, t, pc.msg, pc.child, pc.generation);
    var n := |s.sent|;
    forall c
      ensures Spent(s', c) == Spent(s, c)
    {
      assert forall k: nat :: Ended(s', k) == Ended(s, k);
      assert forall k: nat | k < n :: Initialize(s', k, c) == Initialize(s, k, c);
    }
    forall k: nat, m: nat
      ensures AgainOk(s', k, m)
    {
      assert AgainOk(s, k, m);
      if k < m == n && s'.sent[k].initialize && s'.sent[m].initialize && s'.sent[k].child == s'.sent[m].child {
        assert HoldsInit(pc) && Initialize(s, k, pc.child);
        assert k in s.fates && !Ended(s, k);
      }
    }
  }

  /** A call ends. */
  lemma AwaitKeeps(s: Shared, pc: Pc, result: CallResult, h: Option<Pc>, h': Option<Pc>)
    requires CurrentOk(s, h) && HolderOk(s, h) && OneOpen(s, h) && Ordered(s) && Fields(s) && pc.Awaiting?
    requires pc.index < |s.sent| && s.sent[pc.index].child == pc.child && pc.index !in s.fates
    requires s.sent[pc.index].initialize == HoldsInit(pc)
    requires HoldsInit(pc) ==> h == Some(pc)
    requires var pc' := Await(s, pc.msg, pc.child, pc.index, result).1; h' == if HoldsInit(pc) then Some(pc') else h
    ensures var s' := Await(s, pc.msg, pc.child, pc.index, result).0;
      CurrentOk(s', h') && HolderOk(s', h') && OneOpen(s', h') && Ordered(s')
  {
    var (s', pc') := Await(s, pc.msg, pc.child, pc.index, result);
    forall c | Spent(s', c)
      ensures Spent(s, c) || (HoldsInit(pc) && c == pc.child && result != Cancelled)
    {
      var k :| Initialize(s', k, c) && Ended(s', k);
      assert Initialize(s, k, c) && (k != pc.index ==> Ended(s, k));
    }
    forall k: nat, m: nat
      ensures AgainOk(s', k, m)
    {
      assert AgainOk(s, k, m);
    }
  }

  lemma AdvanceKeeps(s: Sys, t: Tid, x: Input)
    requires Inv(s) && InitOk(s) && Enabled(s, Advance(t, x))
    ensures InitOk(Next(s, Advance(t, x)))
  {
    var pc := s.threads[t];
    var (sh', pc') := Step(s.sh, t, pc, x);
    assert ThreadOk(s.sh, t, pc);
    LocksWaitedFor(s.sh, t, pc, x);
    HolderMoves(s, t, sh', pc');
    var h, h' := Holder(s), Holder(Moved(s, t, sh', pc'));
    if pc.Rewriting? {
      RewriteKeeps(s.sh, t, pc, h, h');
    } else if pc.Awaiting? {
      AwaitKeeps(s.sh, pc, x.result, h, h');
    } else {
      StepCache(s.sh, t, pc, x);
      StepRecord(s.sh, t, pc, x);
      QuietStepKeeps(s.sh, pc, h, sh', pc', h');
    }
  }

  lemma OutsideKeeps(s: Sys, e: Event)
    requires Inv(s) && InitOk(s) && Enabled(s, e) && !e.Advance?
    ensures InitOk(Next(s, e))
  {
    var s' := Next(s, e);
    assert Holder(s') == Holder(s);
    SpentSame(s.sh, s'.sh);
    assert forall k: nat, m: nat :: AgainOk(s.sh, k, m) ==> AgainOk(s'.sh, k, m);
  }

  lemma {:induction false} InitReachable(states: seq<Sys>, events: seq<Event>, i: nat)
    requires Run(states, events) && i < |states|
    ensures InitOk(states[i])
  {
    if i > 0 {
      InitReachable(states, events, i - 1);
      Reachable(states, events, i - 1);
      assert states[i] == Next(states[i - 1], events[i - 1]);
      if events[i - 1].Advance? {
        AdvanceKeeps(states[i - 1], events[i - 1].t, events[i - 1].x);
      } else {
        OutsideKeeps(states[i - 1], events[i - 1]);
      }
    }
  }

  // --- The theorems ---

  /**
   A child may be asked to initialize more than once, but a later request is sent to it only after every
   earlier one has ended because its caller went away: not one of them was answered to its caller, and
   not one of them broke.
   */
  lemma InitializedAgainOnlyAfterCancel(states: seq<Sys>, events: seq<Event>, i: nat, k: nat, m: nat, c: Child)
    requires Run(states, events) && i < |states| && k < m
    requires Initialize(states[i].sh, k, c) && Initialize(states[i].sh, m, c)
    ensures k in states[i].sh.fates && states[i].sh.fates[k] == Cancelled
  {
    InitReachable(states, events, i);
    assert AgainOk(states[i].sh, k, m);
  }

  /** So however many clients initialize, at most one initialize call per child is answered to its caller. */
  lemma AnsweredOncePerChild(states: seq<Sys>, events: seq<Event>, i: nat, k: nat, m: nat, c: Child)
    requires Run(states, events) && i < |states| && Initialize(states[i].sh, k, c) && Initialize(states[i].sh, m, c)
    requires k in states[i].sh.fates && states[i].sh.fates[k] == Answer
    requires m in states[i].sh.fates && states[i].sh.fates[m] == Answer
    ensures k == m
  {
    if k < m {
      InitializedAgainOnlyAfterCancel(states, events, i, k, m, c);
    } else if m < k {
      InitializedAgainOnlyAfterCancel(states, events, i, m, k, c);
    }
  }

  // --- A cancelled initialize is sent again ---

  /** A client initializes: from its arrival to the request on its way to child 1. */
  lemma AskToInitialize(states: seq<Sys>, events: seq<Event>, t: Tid) returns (states': seq<Sys>, events': seq<Event>)
    requires Run(states, events)
    requires var s := states[|states| - 1];
      t !in s.threads && s.initMu == None && !s.sh.draining && s.sh.initResp.None? && s.sh.exited == {}
    ensures Run(states', events')
    ensures var (s, s') := (states[|states| - 1], states'[|states'| - 1]);
      var (sh, got) := ChildForRequest(s.sh, true);
      && got.Some? && s'.threads == s.threads[t := Awaiting(Msg("", INITIALIZE, ""), got.value.0, |s.sh.sent|)]
      && s'.sh == Rewrite(sh, t, Msg("", INITIALIZE, ""), got.value.0, got.value.1).0 && s'.initMu == Some(t)
  {
    var go := Input(true, true, Answer, true);
    states', events' := Extend(states, events, Call(t, Msg("", INITIALIZE, "")));
    states', events' := Extend(states', events', Advance(t, go));
    states', events' := Extend(states', events', Advance(t, go));
    states', events' := Extend(states', events', Advance(t, go));
    states', events' := Extend(states', events', Advance(t, go));
    states', events' := Extend(states', events', Advance(t, go));
  }

  /** The caller goes away and the call returns. */
  lemma GoAway(states: seq<Sys>, events: seq<Event>, t: Tid) returns (states': seq<Sys>, events': seq<Event>)
    requires Run(states, events)
    requires var s := states[|states| - 1];
      s.initMu == Some(t) && t in s.threads && s.threads[t].Awaiting? && s.threads[t].index < |s.sh.sent|
    ensures Run(states', events')
    ensures var (s, s') := (states[|states| - 1], states'[|states'| - 1]);
      && s'.threads == s.threads - {t} && s'.initMu == None
      && s'.sh == s.sh.(fates := s.sh.fates[s.threads[t].index := Cancelled])
  {
    states', events' := Extend(states, events, Advance(t, Input(true, true, Cancelled, true)));
    states', events' := Extend(states', events', Advance(t, Input(true, true, Cancelled, true)));
  }

  /** A run in which one live child, never replaced, is asked to initialize twice: the first caller went away. */
  lemma OneChildAskedTwice() returns (states: seq<Sys>, events: seq<Event>)
    ensures Run(states, events)
    ensures var s := states[|states| - 1].sh;
      s.started == 1 && s.child == Some(1) && s.exited == {} && |s.sent| == 2 && Initialize(s, 0, 1) && Initialize(s, 1, 1)
  {
    states, events := [Sys(Shared(false, None, 0, 0, None, false, 0, {}, 0, map[], {}, [], [], map[]), None, map[])], [];
    states, events := AskToInitialize(states, events, 0);
    states, events := GoAway(states, events, 0);
    states, events := AskToInitialize(states, events, 1);
  }
}
