/** The shared-child supervisor as an object, each locked region proved to be a step of its protocol. */
module Supervisor {
  import opened Basics
  import opened SharedChild

  class SharedChildSupervisor {
    var draining: bool
    var child: Option<Child>
    var generation: nat
    var nextRequestID: nat
    var initializeResp: Option<Reply>
    var initialized: bool
    var exited: set<Child>
    ghost var epoch: nat
    ghost var births: map<Child, nat>
    ghost var flags: set<nat>
    ghost var sent: seq<Sent>
    ghost var forwards: seq<Forward>
    ghost var fates: map<nat, CallResult>

    constructor ()
      ensures Value() == Shared(false, None, 0, 0, None, false, 0, {}, 0, map[], {}, [], [], map[])
    {
      draining, child, generation, nextRequestID := false, None, 0, 0;
      initializeResp, initialized, exited := None, false, {};
      epoch, births, flags, sent, forwards, fates := 0, map[], {}, [], [], map[];
    }

    /** Children are numbered by the generation they were started in. */
    ghost function Value(): Shared
      reads this
    {
      Shared(draining, child, generation, nextRequestID, initializeResp, initialized,
             generation, exited, epoch, births, flags, sent, forwards, fates)
    }

    method ResetLocked()
      modifies `child, `initializeResp, `initialized, `epoch
      ensures Value() == Reset(old(Value()))
    {
      child, initializeResp, initialized := None, None, false;
      epoch := epoch + 1;
    }

    method ChildForRequestLocked(startOk: bool) returns (got: Option<(Child, nat)>)
      modifies `child, `initializeResp, `initialized, `epoch, `generation, `births
      ensures (Value(), got) == ChildForRequest(old(Value()), startOk)
    {
      if child.Some? {
        if child.value in exited {
          ResetLocked();
        } else {
          return Some((child.value, generation));
        }
      }
      if draining {
        return None;
      }
      if !startOk {
        return None;
      }
      generation := generation + 1;
      child := Some(generation);
      births := births[generation := epoch];
      got := Some((generation, generation));
    }

    method AdmitDelivery(msg: Msg, admitOk: bool) returns (admitted: bool)
      ensures admitted <==>
        admitOk && !(draining && (msg.kind == "initialize" || (msg.kind == "tools/call" && msg.tool != "devbox_exec_poll")))
      ensures Admit(Value(), msg, admitOk) == Some(if admitted then CallEntered(msg) else Returning(msg, DrainRefused))
    {
      if draining && (msg.kind == INITIALIZE || (msg.kind == TOOLS_CALL && msg.tool != POLL)) {
        return false;
      }
      admitted := admitOk;
    }

    method CachedInitialize(msg: Msg) returns (pc: Pc)
      ensures pc == CheckCache(Value(), msg)
    {
      if msg.kind == INITIALIZE && initializeResp.Some? {
        var resp := initializeResp.value.(id := msg.id);
        return Returning(msg, Answered(resp, None));
      }
      pc := ChildWanted(msg);
    }

    method RewriteRequest(t: Tid, msg: Msg, to: Child, atGeneration: nat) returns (id: string)
      modifies `nextRequestID, `sent
      ensures Value() == Rewrite(old(Value()), t, msg, to, atGeneration).0
      ensures id == RequestId(atGeneration, nextRequestID) && sent == old(sent) + [Sent(t, to, id, msg.kind == INITIALIZE)]
    {
      nextRequestID := nextRequestID + 1;
      id := RequestId(atGeneration, nextRequestID);
      sent := sent + [Sent(t, to, id, msg.kind == INITIALIZE)];
    }

    /** The end of an initialize call: the reply is cached only if its child is still the current one. */
    method StoreInitialize(msg: Msg, from: Child, ghost index: nat, reply: Reply)
      requires index < |sent| && reply == ReplyTo(Value(), msg, index)
      modifies `initializeResp
      ensures Value() == Store(old(Value()), msg, from, index).0
    {
      if child == Some(from) {
        initializeResp := Some(reply);
      }
    }

    method ClaimInitializedLocked(msg: Msg) returns (forward: bool)
      modifies `initialized, `flags
      ensures var (next, pc) := ClaimInitialized(old(Value()), msg); Value() == next && (forward <==> pc.NotifyChild?)
    {
      if msg.kind == INITIALIZED {
        if initialized {
          return false;
        }
        initialized := true;
        flags := flags + {epoch};
      }
      forward := true;
    }

    method DiscardLocked(c: Child)
      modifies `child, `initializeResp, `initialized, `epoch
      ensures Value() == Discard(old(Value()), c)
    {
      if child == Some(c) {
        ResetLocked();
      }
    }

    method BeginDrainLocked() returns (toSignal: Option<Child>)
      modifies `draining
      ensures Value() == old(Value()).(draining := true) && toSignal == child
    {
      draining := true;
      toSignal := child;
    }

    method Close()
      modifies `child, `initializeResp, `initialized, `epoch, `exited
      ensures Value() == Reset(old(Value())).(exited := old(exited) + (if old(child).Some? then {old(child).value} else {}))
    {
      var c := child;
      ResetLocked();
      if c.Some? {
        exited := exited + {c.value};
      }
    }
  }
}
