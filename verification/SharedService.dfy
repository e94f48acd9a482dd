/** What the shared-child supervisor must do for its clients: who is admitted, answered, told and dropped, over runs. */
module SharedService {
  import opened Basics
  import opened TextOrder
  import opened SharedChild
  import opened SharedChildLaws

  /** The `i`-th event of the run is a step of thread `t`. */
  ghost predicate Moves(states: seq<Sys>, events: seq<Event>, i: nat, t: Tid) {
    Run(states, events) && i < |events| && events[i].Advance? && events[i].t == t && t in states[i].threads
  }

  /** The thread goes on to `pc`, and the supervisor is then in the state `sh`. */
  ghost predicate GoesTo(states: seq<Sys>, i: nat, t: Tid, sh: Shared, pc: Pc)
    requires i + 1 < |states|
  {
    states[i + 1].sh == sh && t in states[i + 1].threads && states[i + 1].threads[t] == pc
  }

  /** The child is there and has not exited. */
  ghost predicate Alive(s: Shared) {
    s.child.Some? && s.child.value !in s.exited
  }

  // --- Calls ---

  /**
   Only while draining is anything refused, and then exactly initialize and every tool call but the poll;
   everything else is delivered if the delivery gate admits it.
   */
  lemma DeliveryDecides(states: seq<Sys>, events: seq<Event>, t: Tid, i: nat, msg: Msg)
    requires Moves(states, events, i, t) && states[i].threads[t] == Admitting(msg)
    ensures var s := states[i].sh;
      var refused := s.draining && (msg.kind == "initialize" || (msg.kind == "tools/call" && msg.tool != "devbox_exec_poll"));
      GoesTo(states, i, t, s, if refused || !events[i].x.admitOk then Returning(msg, DrainRefused) else CallEntered(msg))
  {
    assert states[i + 1] == Next(states[i], events[i]);
  }

  /** An initialize is answered from the cache, under its own id, whenever there is a cached reply; any other call wants the child. */
  lemma CacheDecides(states: seq<Sys>, events: seq<Event>, t: Tid, i: nat)
    requires Moves(states, events, i, t) && (states[i].threads[t].CallEntered? || states[i].threads[t].CacheCheck?)
    ensures var (s, pc) := (states[i].sh, states[i].threads[t]);
      if pc.CallEntered? then GoesTo(states, i, t, s, CacheCheck(pc.msg))
      else if pc.msg.kind == "initialize" && s.initResp.Some?
      then GoesTo(states, i, t, s,
                  Returning(pc.msg, Answered(Reply(pc.msg.id, s.initResp.value.producer, s.initResp.value.request), None)))
      else GoesTo(states, i, t, s, ChildWanted(pc.msg))
  {
    assert states[i + 1] == Next(states[i], events[i]);
  }

  /** Everything about a child that is gone is dropped. */
  ghost predicate Dropped(s: Shared, s': Shared) {
    && s'.child == None && s'.initResp == None && !s'.initialized
    && s' == s.(child := None, initResp := None, initialized := false, epoch := s'.epoch)
  }

  /** The child that is alive, or else a new one with nothing cached about it, or else, draining or failing to start, none. */
  ghost predicate Obtained(s: Shared, startOk: bool, s': Shared, got: Option<Child>) {
    if Alive(s) then s' == s && got == s.child
    else if s.draining || !startOk then got == None && (if s.child.Some? then Dropped(s, s') else s' == s)
    else
      && got == s'.child == Some(s.started + 1) && s'.started == s.started + 1 && s'.generation == s.generation + 1
      && s'.initResp == (if s.child.Some? then None else s.initResp)
      && s'.initialized == (if s.child.Some? then false else s.initialized)
      && s'.nextRequest == s.nextRequest && s'.sent == s.sent && s'.forwards == s.forwards && s'.exited == s.exited
  }

  lemma ObtainedBy(s: Shared, startOk: bool)
    ensures var (s', got) := ChildForRequest(s, startOk);
      && Obtained(s, startOk, s', if got.Some? then Some(got.value.0) else None)
      && (got.Some? ==> got.value.1 == s'.generation)
  {
  }

  /** A call that wants the child gets it, or fails. */
  lemma ChildDecides(states: seq<Sys>, events: seq<Event>, t: Tid, i: nat, msg: Msg) returns (got: Option<Child>)
    requires Moves(states, events, i, t) && states[i].threads[t] == ChildWanted(msg)
    ensures Obtained(states[i].sh, events[i].x.startOk, states[i + 1].sh, got) && t in states[i + 1].threads
    ensures states[i + 1].threads[t] ==
            if got.Some? then Rewriting(msg, got.value, states[i + 1].sh.generation) else Returning(msg, Failed)
  {
    assert states[i + 1] == Next(states[i], events[i]);
    ObtainedBy(states[i].sh, events[i].x.startOk);
    var r := ChildForRequest(states[i].sh, events[i].x.startOk).1;
    got := if r.Some? then Some(r.value.0) else None;
  }

  /** The request goes out to that child under the next id of its generation, and is put on record. */
  lemma RequestGoesOut(states: seq<Sys>, events: seq<Event>, t: Tid, i: nat)
    requires Moves(states, events, i, t) && states[i].threads[t].Rewriting?
    ensures var (s, pc) := (states[i].sh, states[i].threads[t]);
      var id := "ws-" + Digits(pc.generation) + "-" + Digits(s.nextRequest + 1);
      GoesTo(states, i, t,
             s.(nextRequest := s.nextRequest + 1, sent := s.sent + [Sent(t, pc.child, id, pc.msg.kind == "initialize")]),
             Awaiting(pc.msg, pc.child, |s.sent|))
  {
    assert states[i + 1] == Next(states[i], events[i]);
  }

  /** The reply comes back under the caller's id; a caller that goes away fails alone; a broken call costs the child. */
  lemma ReplyDecides(states: seq<Sys>, events: seq<Event>, t: Tid, i: nat)
    requires Moves(states, events, i, t) && states[i].threads[t].Awaiting?
    ensures var (s, pc, result) := (states[i].sh, states[i].threads[t], events[i].x.result);
      && pc.index < |s.sent|
      && GoesTo(states, i, t, s.(fates := s.fates[pc.index := result]),
           match result
           case Answer =>
             if pc.msg.kind == "initialize" then Storing(pc.msg, pc.child, pc.index)
             else Returning(pc.msg, Answered(Reply(pc.msg.id, s.sent[pc.index].child, s.sent[pc.index].request), Some(pc.index)))
           case Cancelled => Returning(pc.msg, Failed)
           case Broken => Discarding(pc.msg, pc.child, true))
  {
    assert states[i + 1] == Next(states[i], events[i]);
  }

  /** The reply to an initialize is kept for the next one, if its child is still the current one, and given to the caller. */
  lemma InitializeStored(states: seq<Sys>, events: seq<Event>, t: Tid, i: nat)
    requires Moves(states, events, i, t) && states[i].threads[t].Storing?
    ensures var (s, pc) := (states[i].sh, states[i].threads[t]);
      pc.index < |s.sent| &&
      var reply := Reply(pc.msg.id, s.sent[pc.index].child, s.sent[pc.index].request);
      GoesTo(states, i, t, if s.child == Some(pc.child) then s.(initResp := Some(reply)) else s,
             Returning(pc.msg, Answered(reply, Some(pc.index))))
  {
    assert states[i + 1] == Next(states[i], events[i]);
  }

  /** A child that broke a call or a notification is dropped, unless it has been replaced already, and then killed. */
  lemma BrokenChildGoes(states: seq<Sys>, events: seq<Event>, t: Tid, i: nat)
    requires Moves(states, events, i, t) && (states[i].threads[t].Discarding? || states[i].threads[t].Killing?)
    ensures var (s, s', pc) := (states[i].sh, states[i + 1].sh, states[i].threads[t]);
      if pc.Discarding?
      then (if s.child == Some(pc.child) then Dropped(s, s') else s' == s)
           && GoesTo(states, i, t, s', Killing(pc.msg, pc.child, pc.calling))
      else GoesTo(states, i, t, s.(exited := s.exited + {pc.child}),
                  Returning(pc.msg, if pc.calling then Failed else NotifyFailed))
  {
    assert states[i + 1] == Next(states[i], events[i]);
  }

  // --- Notifications ---

  /** The first initialized notification raises the flag and goes on; while the flag is up the others are done; any other kind goes on. */
  lemma NotifyDecides(states: seq<Sys>, events: seq<Event>, t: Tid, i: nat, msg: Msg)
    requires Moves(states, events, i, t) && states[i].threads[t] == NotifyEntered(msg)
    ensures var s := states[i].sh;
      if msg.kind != "notifications/initialized" then GoesTo(states, i, t, s, NotifyChild(msg, None))
      else if s.initialized then GoesTo(states, i, t, s, Returning(msg, NotifyDone))
      else GoesTo(states, i, t, s.(initialized := true, flags := s.flags + {s.epoch}), NotifyChild(msg, Some(s.epoch)))
  {
    assert states[i + 1] == Next(states[i], events[i]);
  }

  /** It is sent to the child that is alive or newly started, and fails without one. */
  lemma NotifyGetsChild(states: seq<Sys>, events: seq<Event>, t: Tid, i: nat) returns (got: Option<Child>)
    requires Moves(states, events, i, t) && states[i].threads[t].NotifyChild?
    ensures Obtained(states[i].sh, events[i].x.startOk, states[i + 1].sh, got) && t in states[i + 1].threads
    ensures var pc := states[i].threads[t];
      states[i + 1].threads[t] == if got.Some? then NotifySend(pc.msg, got.value, pc.flag) else Returning(pc.msg, NotifyFailed)
  {
    assert states[i + 1] == Next(states[i], events[i]);
    ObtainedBy(states[i].sh, events[i].x.startOk);
    var r := ChildForRequest(states[i].sh, events[i].x.startOk).1;
    got := if r.Some? then Some(r.value.0) else None;
  }

  /** A send that works tells the child; one that fails costs it. */
  lemma NotifySent(states: seq<Sys>, events: seq<Event>, t: Tid, i: nat)
    requires Moves(states, events, i, t) && states[i].threads[t].NotifySend?
    ensures var (s, pc) := (states[i].sh, states[i].threads[t]);
      if events[i].x.sendOk
      then GoesTo(states, i, t,
                  if pc.flag.Some? then s.(forwards := s.forwards + [Forward(pc.child, pc.flag.value)]) else s,
                  Returning(pc.msg, NotifyDone))
      else GoesTo(states, i, t, s, Discarding(pc.msg, pc.child, false))
  {
    assert states[i + 1] == Next(states[i], events[i]);
  }

  // --- Drain and close ---

  /** Draining starts nothing and drops nothing; closing drops the child, with all that is cached, and kills it. */
  lemma OutsideDecides(states: seq<Sys>, events: seq<Event>, i: nat)
    requires Run(states, events) && i < |events|
    ensures events[i].BeginDrain? ==> states[i + 1] == states[i].(sh := states[i].sh.(draining := true))
    ensures events[i].CloseSupervisor? ==>
      var (s, s') := (states[i].sh, states[i + 1].sh);
      && s'.child == None && s'.initResp == None && !s'.initialized && states[i + 1].threads == states[i].threads
      && s'.exited == (if s.child.Some? then s.exited + {s.child.value} else s.exited)
  {
    assert states[i + 1] == Next(states[i], events[i]);
  }

  // --- A whole call ---

  /**
   A call to a live child is carried through: from any point of any run, a new client's call, other than an
   initialize, can go all the way to its answer, which carries the client's own id and comes from that child.
   */
  lemma CallIsAnswered(states: seq<Sys>, events: seq<Event>, t: Tid, msg: Msg) returns (states': seq<Sys>, events': seq<Event>)
    requires Run(states, events) && t !in states[|states| - 1].threads && Alive(states[|states| - 1].sh)
    requires msg.kind != "initialize" && (states[|states| - 1].sh.draining ==> msg.kind != "tools/call" || msg.tool == "devbox_exec_poll")
    ensures Run(states', events') && states <= states' && t in states'[|states'| - 1].threads
    ensures var (s, s') := (states[|states| - 1].sh, states'[|states'| - 1]);
      s'.threads[t] ==
      Returning(msg, Answered(Reply(msg.id, s.child.value, "ws-" + Digits(s.generation) + "-" + Digits(s.nextRequest + 1)),
                              Some(|s.sent|)))
  {
    var go := Input(true, true, Answer, true);
    states', events' := Extend(states, events, Call(t, msg));
    states', events' := Extend(states', events', Advance(t, go));
    states', events' := Extend(states', events', Advance(t, go));
    states', events' := Extend(states', events', Advance(t, go));
    states', events' := FinishCall(states', events', t, msg);
  }

  lemma FinishCall(states: seq<Sys>, events: seq<Event>, t: Tid, msg: Msg) returns (states': seq<Sys>, events': seq<Event>)
    requires Run(states, events) && t in states[|states| - 1].threads && Alive(states[|states| - 1].sh)
    requires states[|states| - 1].threads[t] == ChildWanted(msg) && msg.kind != "initialize"
    ensures Run(states', events') && states <= states' && t in states'[|states'| - 1].threads
    ensures var (s, s') := (states[|states| - 1].sh, states'[|states'| - 1]);
      s'.threads[t] ==
      Returning(msg, Answered(Reply(msg.id, s.child.value, "ws-" + Digits(s.generation) + "-" + Digits(s.nextRequest + 1)),
                              Some(|s.sent|)))
  {
    var go := Input(true, true, Answer, true);
    states', events' := Extend(states, events, Advance(t, go));
    states', events' := Extend(states', events', Advance(t, go));
    states', events' := Extend(states', events', Advance(t, go));
  }
}
