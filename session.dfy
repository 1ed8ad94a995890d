/** The session plumbing of `src/core/database/session.py`: read/write
    routing, the `session_context` context variable, the scoped-session
    registry keyed by that variable, and the `get_session` dependency.

    The SQLAlchemy session is abstract: a session is an identity
    (`AsyncSession`) and every begin, commit, rollback or close issued on it
    is recorded, in order, in a ghost log. The database's answer to a call
    is an input (`Faults`), not something the model computes. */
module Session {
  import opened Outcomes

  // ---------------------------------------------------------------------
  // Read/write routing (`RoutingSession.get_bind`)
  // ---------------------------------------------------------------------

  /** The two engines built from one connection string. */
  datatype Engine = Writer | Reader

  /** The statement a session binds. `Insert`, `Update` and `Delete` stand
      for SQLAlchemy's classes of those names and their subclasses; every
      other statement (a select, a text clause, ...) is `OtherClause`. */
  datatype Clause = Insert | Update | Delete | OtherClause(kind: string)

  predicate IsWriteClause(clause: Option<Clause>) {
    clause.Some? && (clause.value.Insert? || clause.value.Update? || clause.value.Delete?)
  }

  /** The engine a statement runs on. `mapper` and `kwargs` are accepted
      and ignored; `flushing` is the session's `_flushing` flag. */
  function GetBind<M, K>(flushing: bool, mapper: M, clause: Option<Clause>, kwargs: K): (engine: Engine)
    ensures flushing ==> engine == Writer
    ensures IsWriteClause(clause) ==> engine == Writer
    ensures !flushing && !IsWriteClause(clause) ==> engine == Reader
  {
    if flushing || IsWriteClause(clause) then Writer else Reader
  }

  /** Routing is a function of the flushing flag and the clause alone. */
  lemma RoutingIgnoresMapperAndKwargs<M, K>(flushing: bool, clause: Option<Clause>, m: M, m': M, k: K, k': K)
    ensures GetBind(flushing, m, clause, k) == GetBind(flushing, m', clause, k')
  {
  }

  /** The whole decision table, over every kind of clause. */
  lemma RoutingTable<M, K>(mapper: M, kwargs: K)
    ensures forall c: Clause :: GetBind(true, mapper, Some(c), kwargs) == Writer
    ensures GetBind(true, mapper, None, kwargs) == Writer
    ensures GetBind(false, mapper, Some(Insert), kwargs) == Writer
    ensures GetBind(false, mapper, Some(Update), kwargs) == Writer
    ensures GetBind(false, mapper, Some(Delete), kwargs) == Writer
    ensures forall kind :: GetBind(false, mapper, Some(OtherClause(kind)), kwargs) == Reader
    ensures GetBind(false, mapper, None, kwargs) == Reader
  {
  }

  // ---------------------------------------------------------------------
  // The `session_context` context variable
  // ---------------------------------------------------------------------

  /** What `session_context.get()` raises when nothing was set: the
      variable is declared without a default. */
  const ContextNotSet := Exc("LookupError", "session_context")

  /** What `set` hands back: the value the variable held before, `None`
      when it was unset. */
  datatype Token = Token(previous: Option<string>)

  /** `session_context`, seen from one unit of work: the current session
      key, or `None` when unset. */
  class SessionContext {
    var value: Option<string>

    constructor ()
      ensures value == None
    {
      value := None;
    }

    /** `get_session_context`. */
    method Get() returns (r: Outcome<string>)
      ensures value.Some? ==> r == Return(value.value)
      ensures value.None? ==> r == Raise(ContextNotSet)
    {
      if value.Some? {
        r := Return(value.value);
      } else {
        r := Raise(ContextNotSet);
      }
    }

    /** `set_session_context`: the key becomes current and the token keeps
        what was there before. */
    method Set(key: string) returns (token: Token)
      modifies this
      ensures value == Some(key)
      ensures token.previous == old(value)
    {
      token := Token(value);
      value := Some(key);
    }

    /** `reset_session_context`: back to the value the token captured,
        including "unset". */
    method Reset(token: Token)
      modifies this
      ensures value == token.previous
    {
      value := token.previous;
    }
  }

  // ---------------------------------------------------------------------
  // The scoped-session registry, as a value
  // ---------------------------------------------------------------------

  /** One session made by the session factory; `id` tells instances apart. */
  datatype AsyncSession = AsyncSession(id: nat)

  /** The calls the core makes on a session. */
  datatype Event = Begin | Commit | Rollback | Close

  datatype Entry = Entry(session: AsyncSession, event: Event)

  /** The registry of the scoped session: the session stored under each
      key, how many sessions the factory has made, and every call issued
      on a session so far. */
  datatype Registry = Registry(sessions: map<string, AsyncSession>, created: nat, log: seq<Entry>)

  /** How the database answers each kind of call during one unit of work:
      `None` for success, or the exception the call raises. */
  datatype Faults = Faults(commit: Option<Exc>, rollback: Option<Exc>, close: Option<Exc>)

  /** Every session in the registry and in the log came from the factory,
      and no two keys share a session. */
  ghost predicate Consistent(g: Registry) {
    && (forall k :: k in g.sessions ==> g.sessions[k].id < g.created)
    && (forall k, k' :: k in g.sessions && k' in g.sessions && k != k' ==> g.sessions[k] != g.sessions[k'])
    && (forall i :: 0 <= i < |g.log| ==> g.log[i].session.id < g.created)
  }

  /** The session the registry hands out for `key`: the stored one, or
      else the next one the factory makes. */
  function SessionFor(key: string, g: Registry): AsyncSession {
    if key in g.sessions then g.sessions[key] else AsyncSession(g.created)
  }

  /** The registry after a lookup under `key` (get or create). */
  function Resolve(key: string, g: Registry): (r: Registry)
    requires Consistent(g)
    ensures Consistent(r)
    ensures key in r.sessions && r.sessions[key] == SessionFor(key, g)
    ensures forall k :: k != key ==> (k in r.sessions <==> k in g.sessions)
    ensures forall k :: k != key && k in g.sessions ==> r.sessions[k] == g.sessions[k]
    ensures key in g.sessions ==> r == g
    ensures r.log == g.log
  {
    if key in g.sessions then g
    else g.(sessions := g.sessions[key := AsyncSession(g.created)], created := g.created + 1)
  }

  /** `g'` differs from `g` only by calls issued under the current key:
      they all land on the session stored under that key (made on first
      use), and nothing else in the registry moves. Without a key nothing
      changes at all. */
  ghost predicate Confined(scope: Option<string>, g: Registry, g': Registry)
    requires Consistent(g)
  {
    && g.log <= g'.log
    && match scope
       case None => g' == g
       case Some(key) =>
         && (forall i :: |g.log| <= i < |g'.log| ==> g'.log[i].session == SessionFor(key, g))
         && ((g'.sessions == g.sessions && g'.created == g.created)
             || (g'.sessions == Resolve(key, g).sessions && g'.created == Resolve(key, g).created))
  }

  lemma ConfinedTransitive(scope: Option<string>, g: Registry, g1: Registry, g2: Registry)
    requires Consistent(g) && Consistent(g1)
    requires Confined(scope, g, g1) && Confined(scope, g1, g2)
    ensures Confined(scope, g, g2)
  {
    if scope.Some? {
      var key := scope.value;
      assert SessionFor(key, g1) == SessionFor(key, g);
      forall i | |g.log| <= i < |g2.log|
        ensures g2.log[i].session == SessionFor(key, g)
      {
        if i < |g1.log| {
          assert g2.log[i] == g1.log[i];
        }
      }
    }
  }

  /** A lookup under a key the registry does not hold yields a session
      that no other key holds and that has never been used. */
  lemma NewKeyGetsUnusedSession(key: string, g: Registry)
    requires Consistent(g)
    requires key !in g.sessions
    ensures forall k :: k in g.sessions ==> g.sessions[k] != SessionFor(key, g)
    ensures forall i :: 0 <= i < |g.log| ==> g.log[i].session != SessionFor(key, g)
  {
  }

  /** The registry and the raised exception, if any, after a call such as
      `session.commit()` on the scoped session: it looks up the session
      under the current key, then issues the call there. */
  function Proxied(scope: Option<string>, g: Registry, event: Event, fault: Option<Exc>): (r: (Registry, Option<Exc>))
    requires Consistent(g)
    ensures Consistent(r.0)
    ensures scope.None? ==> r == (g, Some(ContextNotSet))
    ensures scope.Some? ==> r.1 == fault
    ensures scope.Some? ==> r.0.log == g.log + [Entry(SessionFor(scope.value, g), event)]
    ensures scope.Some? ==> r.0.sessions == Resolve(scope.value, g).sessions
    ensures Confined(scope, g, r.0)
  {
    match scope
    case None => (g, Some(ContextNotSet))
    case Some(key) =>
      var g1 := Resolve(key, g);
      (g1.(log := g1.log + [Entry(g1.sessions[key], event)]), fault)
  }

  /** The registry and the raised exception, if any, after
      `session.remove()`: if a session is stored under the current key it
      is closed, and the key is dropped unless the close raised. */
  function Removal(scope: Option<string>, g: Registry, closeFault: Option<Exc>): (r: (Registry, Option<Exc>))
    requires Consistent(g)
    ensures Consistent(r.0)
    ensures scope.None? ==> r == (g, Some(ContextNotSet))
    ensures scope.Some? && scope.value !in g.sessions ==> r == (g, None)
    ensures scope.Some? && scope.value in g.sessions ==>
      r.0.log == g.log + [Entry(g.sessions[scope.value], Close)] && r.1 == closeFault
    ensures scope.Some? && r.1.None? ==> r.0.sessions == g.sessions - {scope.value}
    ensures r.1.Some? ==> r.0.sessions == g.sessions
  {
    match scope
    case None => (g, Some(ContextNotSet))
    case Some(key) =>
      if key !in g.sessions then (g, None)
      else
        var g1 := g.(log := g.log + [Entry(g.sessions[key], Close)]);
        if closeFault.Some? then (g1, closeFault) else (g1.(sessions := g1.sessions - {key}), None)
  }

  /** Removing twice under the same key: the second removal finds nothing,
      closes nothing and raises nothing. */
  lemma RemoveTwiceIsNoOp(key: string, g: Registry, fault: Option<Exc>)
    requires Consistent(g)
    ensures var g1 := Removal(Some(key), g, None).0; Removal(Some(key), g1, fault) == (g1, None)
  {
  }

  /** Two lookups under one key, with calls in between, reach one session. */
  lemma SameKeySameSession(key: string, g: Registry, e: Event, e': Event, f: Option<Exc>, f': Option<Exc>)
    requires Consistent(g)
    ensures var g1 := Proxied(Some(key), g, e, f).0;
            var g2 := Proxied(Some(key), g1, e', f').0;
            g2.log == g.log + [Entry(SessionFor(key, g), e), Entry(SessionFor(key, g), e')]
  {
  }

  // ---------------------------------------------------------------------
  // The scoped session (`session`, keyed by `get_session_context`)
  // ---------------------------------------------------------------------

  class ScopedSession {
    /** The context variable the registry is keyed by (its `scopefunc`). */
    const scope: SessionContext
    var sessions: map<string, AsyncSession>
    var created: nat
    /** Every call issued on a session, in order. */
    ghost var log: seq<Entry>

    ghost function Model(): Registry
      reads this
    {
      Registry(sessions, created, log)
    }

    ghost predicate Valid()
      reads this
    {
      Consistent(Model())
    }

    constructor (scope: SessionContext)
      ensures this.scope == scope
      ensures Model() == Registry(map[], 0, [])
      ensures Valid()
    {
      this.scope := scope;
      sessions := map[];
      created := 0;
      log := [];
    }

    /** The registry's `__call__`: the session stored under the current
        key, made by the factory on first use. */
    method Current() returns (r: Outcome<AsyncSession>)
      requires Valid()
      modifies this
      ensures Valid()
      ensures scope.value.None? ==> r == Raise(ContextNotSet) && Model() == old(Model())
      ensures scope.value.Some? ==>
        r == Return(SessionFor(scope.value.value, old(Model())))
        && Model() == Resolve(scope.value.value, old(Model()))
    {
      var key := scope.Get();
      if key.Return? {
        if key.value !in sessions {
          sessions := sessions[key.value := AsyncSession(created)];
          created := created + 1;
        }
        r := Return(sessions[key.value]);
      } else {
        r := Raise(ContextNotSet);
      }
    }

    /** `session.begin()`, `session.commit()`, `session.rollback()` or
        `session.close()` on the scoped session. */
    method Issue(event: Event, fault: Option<Exc>) returns (err: Option<Exc>)
      requires Valid()
      modifies this
      ensures Valid()
      ensures (Model(), err) == Proxied(scope.value, old(Model()), event, fault)
    {
      var s := Current();
      if s.Return? {
        log := log + [Entry(s.value, event)];
        err := fault;
      } else {
        err := Some(ContextNotSet);
      }
    }

    /** `session.remove()`: close the session under the current key if
        there is one, then drop the key. */
    method Remove(closeFault: Option<Exc>) returns (err: Option<Exc>)
      requires Valid()
      modifies this
      ensures Valid()
      ensures (Model(), err) == Removal(scope.value, old(Model()), closeFault)
    {
      var key := scope.Get();
      if !key.Return? {
        return Some(ContextNotSet);
      }
      if key.value in sessions {
        err := Issue(Close, closeFault);
        if err.Some? {
          return;
        }
      }
      sessions := sessions - {key.value};
      err := None;
    }
  }

  /** `get_session`: hand the scoped session to a consumer and close it
      when the consumer is done, whether it returned, raised or was
      cancelled. An exception from the close replaces the consumer's
      outcome. The consumer is given only by how it ends: the calls it
      makes on the session itself are not modelled, so the log shows the
      close and nothing of what came before it. */
  method GetSession<T>(session: ScopedSession, consumer: Outcome<T>, closeFault: Option<Exc>) returns (r: Outcome<T>)
    requires session.Valid()
    modifies session
    ensures session.Valid()
    ensures var (g, err) := Proxied(old(session.scope.value), old(session.Model()), Close, closeFault);
            session.Model() == g && r == (if err.Some? then Raise(err.value) else consumer)
  {
    var err := session.Issue(Close, closeFault);
    r := if err.Some? then Raise(err.value) else consumer;
  }
}
