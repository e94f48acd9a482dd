/**
 The supervisor that shares one restartable child among many clients, as a step system. Children are
 numbered in the order they are started. The multiplexer's contract is that a successful call returns
 the reply to that very request.
 */
module SharedChild {
  import opened Basics
  import opened TextOrder

  type Tid = nat
  type Child = nat

  const INITIALIZE := "initialize"
  const INITIALIZED := "notifications/initialized"
  const TOOLS_CALL := "tools/call"
  const POLL := "devbox_exec_poll"

  /** A client's message: id, JSON-RPC method, and the name parameter of a tools/call. */
  datatype Msg = Msg(id: string, kind: string, tool: string)

  /** A reply: the id it carries, the child that produced it, and the rewritten request it answers. */
  datatype Reply = Reply(id: string, producer: Child, request: string)

  /** One rewritten request on its way to a child. */
  datatype Sent = Sent(caller: Tid, child: Child, request: string, initialize: bool)

  /** One forwarded initialized notification: the epoch its flag was set in. */
  datatype Forward = Forward(child: Child, flagEpoch: nat)

  /**
   The supervisor's fields, and what they are about: the children started, those that have exited, the
   requests and notifications sent, and how each request ended for the call that waited for it. An epoch
   ends when the child and its cached state are cleared.
   */
  datatype Shared = Shared(
    draining: bool, child: Option<Child>, generation: nat, nextRequest: nat,
    initResp: Option<Reply>, initialized: bool,
    started: nat, exited: set<Child>, epoch: nat, births: map<Child, nat>, flags: set<nat>,
    sent: seq<Sent>, forwards: seq<Forward>, fates: map<nat, CallResult>)

  datatype Outcome =
    | Answered(reply: Reply, sentAs: Option<nat>)
    | Failed
    | DrainRefused
    | NotifyDone
    | NotifyFailed

  datatype Pc =
    | Admitting(msg: Msg)
    | CallEntered(msg: Msg)
    | CacheCheck(msg: Msg)
    | ChildWanted(msg: Msg)
    | Rewriting(msg: Msg, child: Child, generation: nat)
    | Awaiting(msg: Msg, child: Child, index: nat)
    | Storing(msg: Msg, child: Child, index: nat)
    | Discarding(msg: Msg, child: Child, calling: bool)
    | Killing(msg: Msg, child: Child, calling: bool)
    | Returning(msg: Msg, outcome: Outcome)
    | NotifyEntered(msg: Msg)
    | NotifyChild(msg: Msg, flag: Option<nat>)
    | NotifySend(msg: Msg, child: Child, flag: Option<nat>)

  /** A call ends with the reply, with its caller gone, or with the connection to the child broken. */
  datatype CallResult = Answer | Cancelled | Broken

  datatype Input = Input(startOk: bool, admitOk: bool, result: CallResult, sendOk: bool)

  // --- Request ids ---

  /** ws-<generation>-<counter>. */
  function RequestId(generation: nat, n: nat): string {
    "ws-" + Digits(generation) + "-" + Digits(n)
  }

  /** Two request ids are equal only for the same generation and the same counter value. */
  lemma RequestIdInjective(g: nat, m: nat, h: nat, n: nat)
    requires RequestId(g, m) == RequestId(h, n)
    ensures g == h && m == n
  {
    assert RequestId(g, m)[3..] == Digits(g) + "-" + Digits(m) && RequestId(h, n)[3..] == Digits(h) + "-" + Digits(n);
    SameUpTo('-', Digits(g), Digits(h), Digits(m), Digits(n));
    DigitsInjective(g, h);
    DigitsInjective(m, n);
  }

  // --- The atomic regions ---

  /** Drops the child together with everything cached about it. */
  function Reset(s: Shared): Shared {
    s.(child := None, initResp := None, initialized := false, epoch := s.epoch + 1)
  }

  function StartChild(s: Shared): Shared {
    s.(generation := s.generation + 1, started := s.started + 1, child := Some(s.started + 1),
       births := s.births[s.started + 1 := s.epoch])
  }

  /** childForRequest: the live child, or a new one unless draining. */
  function ChildForRequest(s: Shared, startOk: bool): (Shared, Option<(Child, nat)>) {
    if s.child.Some? && s.child.value !in s.exited then (s, Some((s.child.value, s.generation)))
    else
      var cleared := if s.child.Some? then Reset(s) else s;
      if s.draining || !startOk then (cleared, None)
      else var next := StartChild(cleared); (next, Some((next.child.value, next.generation)))
  }

  predicate RefusedByDrain(draining: bool, msg: Msg) {
    draining && (msg.kind == INITIALIZE || (msg.kind == TOOLS_CALL && msg.tool != POLL))
  }

  function Admit(s: Shared, msg: Msg, admitOk: bool): Option<Pc> {
    Some(if RefusedByDrain(s.draining, msg) || !admitOk then Returning(msg, DrainRefused) else CallEntered(msg))
  }

  function CheckCache(s: Shared, msg: Msg): Pc {
    if msg.kind == INITIALIZE && s.initResp.Some?
    then Returning(msg, Answered(s.initResp.value.(id := msg.id), None)) else ChildWanted(msg)
  }

  function Rewrite(s: Shared, t: Tid, msg: Msg, child: Child, generation: nat): (Shared, Pc) {
    var n := s.nextRequest + 1;
    (s.(nextRequest := n, sent := s.sent + [Sent(t, child, RequestId(generation, n), msg.kind == INITIALIZE)]), Awaiting(msg, child, |s.sent|))
  }

  function ReplyTo(s: Shared, msg: Msg, index: nat): Reply
    requires index < |s.sent|
  {
    Reply(msg.id, s.sent[index].child, s.sent[index].request)
  }

  function Await(s: Shared, msg: Msg, child: Child, index: nat, result: CallResult): (Shared, Pc)
    requires index < |s.sent|
  {
    (s.(fates := s.fates[index := result]),
     match result
     case Answer =>
       if msg.kind == INITIALIZE then Storing(msg, child, index)
       else Returning(msg, Answered(ReplyTo(s, msg, index), Some(index)))
     case Cancelled => Returning(msg, Failed)
     case Broken => Discarding(msg, child, true))
  }

  function Store(s: Shared, msg: Msg, child: Child, index: nat): (Shared, Pc)
    requires index < |s.sent|
  {
    var reply := ReplyTo(s, msg, index);
    (if s.child == Some(child) then s.(initResp := Some(reply)) else s, Returning(msg, Answered(reply, Some(index))))
  }

  function Discard(s: Shared, child: Child): Shared {
    if s.child == Some(child) then Reset(s) else s
  }

  /** notify's guard: the first to see the flag down raises it and goes on. */
  function ClaimInitialized(s: Shared, msg: Msg): (Shared, Pc) {
    if msg.kind != INITIALIZED then (s, NotifyChild(msg, None))
    else if s.initialized then (s, Returning(msg, NotifyDone))
    else (s.(initialized := true, flags := s.flags + {s.epoch}), NotifyChild(msg, Some(s.epoch)))
  }

  function SendNotification(s: Shared, msg: Msg, child: Child, flag: Option<nat>, sendOk: bool): (Shared, Pc) {
    if !sendOk then (s, Discarding(msg, child, false))
    else (if flag.Some? then s.(forwards := s.forwards + [Forward(child, flag.value)]) else s, Returning(msg, NotifyDone))
  }

  /** The requests a thread waits for are on record. */
  predicate Indexed(s: Shared, pc: Pc) {
    (pc.Awaiting? ==> pc.index < |s.sent|) && (pc.Storing? ==> pc.index < |s.sent|)
  }

  function Step(s: Shared, t: Tid, pc: Pc, x: Input): (Shared, Option<Pc>)
    requires Indexed(s, pc)
  {
    match pc
    case Admitting(msg) => (s, Admit(s, msg, x.admitOk))
    case CallEntered(msg) => (s, Some(CacheCheck(msg)))
    case CacheCheck(msg) => (s, Some(CheckCache(s, msg)))
    case ChildWanted(msg) =>
      var (next, got) := ChildForRequest(s, x.startOk);
      (next, Some(if got.Some? then Rewriting(msg, got.value.0, got.value.1) else Returning(msg, Failed)))
    case Rewriting(msg, child, generation) => var (next, p) := Rewrite(s, t, msg, child, generation); (next, Some(p))
    case Awaiting(msg, child, index) => var (next, p) := Await(s, msg, child, index, x.result); (next, Some(p))
    case Storing(msg, child, index) => var (next, p) := Store(s, msg, child, index); (next, Some(p))
    case Discarding(msg, child, calling) => (Discard(s, child), Some(Killing(msg, child, calling)))
    case Killing(msg, child, calling) =>
      (s.(exited := s.exited + {child}), Some(Returning(msg, if calling then Failed else NotifyFailed)))
    case Returning(_, _) => (s, None)
    case NotifyEntered(msg) => var (next, p) := ClaimInitialized(s, msg); (next, Some(p))
    case NotifyChild(msg, flag) =>
      var (next, got) := ChildForRequest(s, x.startOk);
      (next, Some(if got.Some? then NotifySend(msg, got.value.0, flag) else Returning(msg, NotifyFailed)))
    case NotifySend(msg, child, flag) => var (next, p) := SendNotification(s, msg, child, flag, x.sendOk); (next, Some(p))
  }

  // --- The whole system ---

  datatype Sys = Sys(sh: Shared, initMu: Option<Tid>, threads: map<Tid, Pc>)

  datatype Event =
    | Call(t: Tid, msg: Msg)
    | Notify(t: Tid, msg: Msg)
    | Advance(t: Tid, x: Input)
    | Exit(child: Child)
    | BeginDrain
    | CloseSupervisor

  /** An initialize call holds its own lock from the cache check until it returns. */
  predicate HoldsInit(pc: Pc) {
    match pc
    case Admitting(_) => false
    case CallEntered(_) => false
    case NotifyEntered(_) => false
    case NotifyChild(_, _) => false
    case NotifySend(_, _, _) => false
    case Discarding(msg, _, calling) => calling && msg.kind == INITIALIZE
    case Killing(msg, _, calling) => calling && msg.kind == INITIALIZE
    case Returning(msg, outcome) => (outcome.Answered? || outcome.Failed?) && msg.kind == INITIALIZE
    case _ => pc.msg.kind == INITIALIZE
  }

  predicate WaitsForInit(pc: Pc) {
    pc.CallEntered? && pc.msg.kind == INITIALIZE
  }

  ghost predicate Enabled(s: Sys, e: Event) {
    match e
    case Call(t, msg) => t !in s.threads
    case Notify(t, msg) => t !in s.threads
    case Advance(t, _) => t in s.threads && Indexed(s.sh, s.threads[t]) && (WaitsForInit(s.threads[t]) ==> s.initMu == None)
    case Exit(child) => 1 <= child <= s.sh.started
    case BeginDrain => true
    case CloseSupervisor => true
  }

  /** Thread `t` moves on to `pc`, or has returned. */
  ghost function Moved(s: Sys, t: Tid, sh: Shared, pc: Option<Pc>): Sys {
    match pc
    case Some(p) => Sys(sh, if HoldsInit(p) then Some(t) else if s.initMu == Some(t) then None else s.initMu, s.threads[t := p])
    case None => Sys(sh, if s.initMu == Some(t) then None else s.initMu, s.threads - {t})
  }

  ghost function Next(s: Sys, e: Event): Sys
    requires Enabled(s, e)
  {
    match e
    case Call(t, msg) => s.(threads := s.threads[t := Admitting(msg)])
    case Notify(t, msg) => s.(threads := s.threads[t := NotifyEntered(msg)])
    case Advance(t, x) => var (sh, pc) := Step(s.sh, t, s.threads[t], x); Moved(s, t, sh, pc)
    case Exit(child) => s.(sh := s.sh.(exited := s.sh.exited + {child}))
    case BeginDrain => s.(sh := s.sh.(draining := true))
    case CloseSupervisor =>
      s.(sh := Reset(s.sh).(exited := if s.sh.child.Some? then s.sh.exited + {s.sh.child.value} else s.sh.exited))
  }

  ghost predicate Init(s: Sys) {
    s == Sys(Shared(false, None, 0, 0, None, false, 0, {}, 0, map[], {}, [], [], map[]), None, map[])
  }

  ghost predicate Run(states: seq<Sys>, events: seq<Event>) {
    && |states| == |events| + 1 && Init(states[0])
    && forall i {:trigger events[i]} | 0 <= i < |events| :: Enabled(states[i], events[i]) && states[i + 1] == Next(states[i], events[i])
  }
}
