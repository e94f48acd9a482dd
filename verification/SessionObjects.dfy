/** The session handler and the drain registry as objects, each locked region proved to be a step of the drain protocol. */
module SessionObjects {
  import opened Basics
  import opened SessionDrain

  class Session {
    const id: Id
    var closed: bool

    constructor (id: Id)
      ensures this.id == id && !closed
    {
      this.id, closed := id, false;
    }

    /** close: the close function runs the first time only. */
    method Close() returns (ran: bool)
      modifies `closed
      ensures closed && ran == !old(closed)
    {
      ran := !closed;
      closed := true;
    }
  }

  /** One close function per active connection, here named by the session it closes. */
  class DrainRegistry {
    var conns: map<Id, Id>

    constructor ()
      ensures conns == map[]
    {
      conns := map[];
    }

    method Add(id: Id, closes: Id)
      modifies `conns
      ensures conns == old(conns)[id := closes]
    {
      conns := conns[id := closes];
    }

    method Remove(id: Id)
      modifies `conns
      ensures conns == old(conns) - {id}
    {
      conns := conns - {id};
    }

    /** The locked part of DrainAll: one close function for every entry, none left out and none twice. */
    method Snapshot() returns (fns: seq<Id>)
      ensures |fns| == |conns| && (set f | f in fns) == conns.Values
    {
      fns := [];
      var left := conns.Keys;
      while left != {}
        invariant left <= conns.Keys && |fns| + |left| == |conns.Keys|
        invariant forall f <- fns :: f in conns.Values
        invariant forall id <- conns.Keys - left :: conns[id] in fns
        decreases |left|
      {
        var id :| id in left;
        fns := fns + [conns[id]];
        left := left - {id};
      }
      assert |conns.Keys| == |conns|;
    }
  }

  class StreamableHandler {
    const drainer: DrainRegistry
    var shuttingDown: bool
    var nextId: Id
    var sessions: map<Id, Session>
    ghost var closes: multiset<Id>

    constructor ()
      ensures fresh(drainer) && Value() == Registry(false, 0, {}, {}, multiset{}) && Filed()
    {
      drainer := new DrainRegistry();
      shuttingDown, nextId, sessions, closes := false, 0, map[], multiset{};
    }

    ghost function Value(): Registry
      reads this, drainer
    {
      Registry(shuttingDown, nextId, sessions.Keys, drainer.conns.Keys, closes)
    }

    /** Every session is filed under its own id, and every drain entry closes the session it is filed under. */
    ghost predicate Filed()
      reads this, drainer
    {
      (forall id <- sessions :: sessions[id].id == id) && (forall id <- drainer.conns :: drainer.conns[id] == id)
    }

    method StartSession(ok: bool) returns (sess: Session?)
      modifies `nextId
      ensures Value() == Step(old(Value()), Starting, ok).0
      ensures ok ==> sess != null && fresh(sess) && !sess.closed
                     && Step(old(Value()), Starting, ok).1 == Some(Publishing(sess.id))
    {
      if !ok {
        return null;
      }
      sess := new Session(nextId);
      nextId := nextId + 1;
    }

    method Get(id: Id) returns (sess: Session?)
      ensures sess == if id in sessions then sessions[id] else null
    {
      sess := if id in sessions then sessions[id] else null;
    }

    /** The two halves of put: between them another request may run. */
    method Put(sess: Session)
      requires Filed()
      modifies `sessions
      ensures Value() == PutSession(old(Value()), sess.id) && Filed()
    {
      sessions := sessions[sess.id := sess];
    }

    method Register(sess: Session)
      requires Filed()
      modifies drainer
      ensures Value() == AddConn(old(Value()), sess.id) && Filed()
    {
      drainer.Add(sess.id, sess.id);
    }

    method Take(id: Id) returns (sess: Session?)
      requires Filed()
      modifies `sessions
      ensures (Value(), sess != null) == TakeSession(old(Value()), id) && Filed()
      ensures sess != null ==> sess.id == id && id in old(sessions) && sess == old(sessions)[id]
      ensures sessions == old(sessions) - {id}
    {
      sess := null;
      if id in sessions {
        sess := sessions[id];
        sessions := sessions - {id};
      }
      assert sessions.Keys == old(sessions).Keys - {id};
    }

    method Unregister(id: Id)
      requires Filed()
      modifies drainer
      ensures Value() == RemoveConn(old(Value()), id) && Filed()
    {
      drainer.Remove(id);
    }

    method CloseTaken(sess: Session)
      modifies sess, `closes
      ensures Value() == if old(sess.closed) then old(Value()) else CloseSession(old(Value()), sess.id)
      ensures sess.closed
    {
      var ran := sess.Close();
      if ran {
        closes := closes + multiset{sess.id};
      }
    }

    /** removeAndClose in one go: the session is gone and closed, and nobody else was touched. */
    method RemoveAndClose(id: Id) returns (removed: bool)
      requires Filed() && forall k <- sessions :: !sessions[k].closed
      modifies this, drainer, sessions.Values
      ensures removed <==> id in old(sessions)
      ensures sessions == old(sessions) - {id} && Filed() && forall k <- sessions :: !sessions[k].closed
      ensures closes == old(closes) + (if removed then multiset{id} else multiset{})
      ensures drainer.conns == if removed then old(drainer.conns) - {id} else old(drainer.conns)
    {
      var sess := Take(id);
      if sess == null {
        return false;
      }
      Unregister(id);
      CloseTaken(sess);
      removed := true;
    }
  }
}
