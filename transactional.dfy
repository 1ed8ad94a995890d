/** The `Transactional` decorator of `src/core/database/transactional.py`:
    run a function, commit on success, roll back and re-raise when the
    function or the commit raises an `Exception`. */
module Transactions {
  import opened Outcomes
  import opened Session

  /** The decorator's propagation setting. Python does not check the type
      of the argument, so any other value can be given; it is kept as
      `Unrecognized`. */
  datatype Propagation = Required | RequiredNew | Unrecognized(value: string)

  // ---------------------------------------------------------------------
  // The decorator as functions of the registry
  // ---------------------------------------------------------------------

  /** `_run_required`: the function, then a commit. The outcome is what
      the try block of the decorator sees. */
  function RequiredRun<T>(scope: Option<string>, g: Registry, f: Outcome<T>, faults: Faults): (r: (Registry, Outcome<T>))
    requires Consistent(g)
    ensures Consistent(r.0)
    ensures Confined(scope, g, r.0)
    ensures !f.Return? ==> r == (g, f)
    ensures scope.Some? && f.Return? ==>
      && r.0.log == g.log + [Entry(SessionFor(scope.value, g), Commit)]
      && r.1 == (if faults.commit.Some? then Raise(faults.commit.value) else f)
  {
    match f
    case Return(v) =>
      var (g1, err) := Proxied(scope, g, Commit, faults.commit);
      (g1, if err.Some? then Raise(err.value) else Return(v))
    case Raise(e) => (g, Raise(e))
    case Cancel => (g, Cancel)
  }

  /** `_run_required_new`: a begin (recorded only; the source does not
      await it), then the function, then a commit. */
  function RequiredNewRun<T>(scope: Option<string>, g: Registry, f: Outcome<T>, faults: Faults): (r: (Registry, Outcome<T>))
    requires Consistent(g)
    ensures Consistent(r.0)
    ensures Confined(scope, g, r.0)
    ensures scope.None? ==> r == (g, Raise(ContextNotSet))
    ensures scope.Some? && !f.Return? ==>
      r.0.log == g.log + [Entry(SessionFor(scope.value, g), Begin)] && r.1 == f
    ensures scope.Some? && f.Return? ==>
      && r.0.log == g.log + [Entry(SessionFor(scope.value, g), Begin), Entry(SessionFor(scope.value, g), Commit)]
      && r.1 == (if faults.commit.Some? then Raise(faults.commit.value) else f)
  {
    var (g1, err) := Proxied(scope, g, Begin, None);
    if err.Some? then (g1, Raise(err.value))
    else
      var r := RequiredRun(scope, g1, f, faults);
      ConfinedTransitive(scope, g, g1, r.0);
      r
  }

  /** The decorated call: dispatch on the propagation, then roll back if
      the try block raised an `Exception`. An exception from the rollback
      takes the place of the one being re-raised. */
  function TransactionalRun<T>(p: Propagation, scope: Option<string>, g: Registry, f: Outcome<T>, faults: Faults): (r: (Registry, Outcome<T>))
    requires Consistent(g)
    ensures Consistent(r.0)
    ensures Confined(scope, g, r.0)
    ensures f.Cancel? && scope.Some? ==> r.1 == Cancel
  {
    var (g1, o) := match p
      case RequiredNew => RequiredNewRun(scope, g, f, faults)
      case _ => RequiredRun(scope, g, f, faults);
    if o.Raise? then
      var (g2, err) := Proxied(scope, g1, Rollback, faults.rollback);
      ConfinedTransitive(scope, g, g1, g2);
      (g2, if err.Some? then Raise(err.value) else o)
    else
      (g1, o)
  }

  // ---------------------------------------------------------------------
  // What the decorator promises, path by path
  // ---------------------------------------------------------------------

  /** REQUIRED, function returns, commit succeeds: one commit, no begin,
      no rollback, the value comes back unchanged. */
  lemma RequiredSuccess<T>(key: string, g: Registry, v: T, faults: Faults)
    requires Consistent(g)
    requires faults.commit.None?
    ensures var r := TransactionalRun(Required, Some(key), g, Return(v), faults);
            r.1 == Return(v) && r.0.log == g.log + [Entry(SessionFor(key, g), Commit)]
  {
  }

  /** REQUIRED_NEW, function returns, commit succeeds: begin, then commit,
      and the value comes back unchanged. */
  lemma RequiredNewSuccess<T>(key: string, g: Registry, v: T, faults: Faults)
    requires Consistent(g)
    requires faults.commit.None?
    ensures var r := TransactionalRun(RequiredNew, Some(key), g, Return(v), faults);
            var s := SessionFor(key, g);
            r.1 == Return(v) && r.0.log == g.log + [Entry(s, Begin), Entry(s, Commit)]
  {
  }

  /** Any value other than the two members behaves exactly like REQUIRED. */
  lemma UnrecognizedIsRequired<T>(raw: string, scope: Option<string>, g: Registry, f: Outcome<T>, faults: Faults)
    requires Consistent(g)
    ensures TransactionalRun(Unrecognized(raw), scope, g, f, faults) == TransactionalRun(Required, scope, g, f, faults)
  {
  }

  /** The function raises: no commit, one rollback, and the same exception
      is re-raised (REQUIRED_NEW has issued its begin first). */
  lemma FunctionRaisesRollsBack<T>(p: Propagation, key: string, g: Registry, e: Exc, faults: Faults)
    requires Consistent(g)
    requires faults.rollback.None?
    ensures var r := TransactionalRun<T>(p, Some(key), g, Raise(e), faults);
            var s := SessionFor(key, g);
            r.1 == Raise(e)
            && r.0.log == g.log + (if p.RequiredNew? then [Entry(s, Begin)] else []) + [Entry(s, Rollback)]
  {
  }

  /** The commit raises: it is inside the try, so a rollback follows and
      the commit's exception is re-raised; the function's value is lost. */
  lemma CommitRaisesRollsBack<T>(p: Propagation, key: string, g: Registry, v: T, c: Exc, faults: Faults)
    requires Consistent(g)
    requires faults.commit == Some(c) && faults.rollback.None?
    ensures var r := TransactionalRun(p, Some(key), g, Return(v), faults);
            var s := SessionFor(key, g);
            r.1 == Raise(c)
            && r.0.log == g.log + (if p.RequiredNew? then [Entry(s, Begin)] else []) + [Entry(s, Commit), Entry(s, Rollback)]
  {
  }

  /** A failing rollback, after the function or the commit raised: its
      exception is the one that leaves. */
  lemma RollbackRaisesReplaces<T>(p: Propagation, key: string, g: Registry, f: Outcome<T>, x: Exc, faults: Faults)
    requires Consistent(g)
    requires f.Raise? || (f.Return? && faults.commit.Some?)
    requires faults.rollback == Some(x)
    ensures TransactionalRun(p, Some(key), g, f, faults).1 == Raise(x)
  {
  }

  /** Cancellation is not an `Exception`: no commit, no rollback, and the
      cancellation propagates. */
  lemma CancelSkipsRollback<T>(p: Propagation, key: string, g: Registry, faults: Faults)
    requires Consistent(g)
    ensures var r := TransactionalRun<T>(p, Some(key), g, Cancel, faults);
            r.1 == Cancel
            && r.0.log == g.log + (if p.RequiredNew? then [Entry(SessionFor(key, g), Begin)] else [])
  {
  }

  /** With no session key set, REQUIRED still runs the function, but the
      commit or the rollback raises the lookup error; REQUIRED_NEW fails
      at its begin, before the function runs. Nothing is recorded. */
  lemma UnsetContextRaises<T>(p: Propagation, g: Registry, f: Outcome<T>, faults: Faults)
    requires Consistent(g)
    ensures var r := TransactionalRun(p, None, g, f, faults);
            r.0 == g
            && (p.RequiredNew? || !f.Cancel? ==> r.1 == Raise(ContextNotSet))
            && (!p.RequiredNew? && f.Cancel? ==> r.1 == Cancel)
  {
  }

  // ---------------------------------------------------------------------
  // The decorator object
  // ---------------------------------------------------------------------

  class Transactional {
    const propagation: Propagation

    /** `Transactional(propagation=...)`; REQUIRED when no value is given. */
    constructor (propagation: Propagation := Required)
      ensures this.propagation == propagation
    {
      this.propagation := propagation;
    }

    /** `Transactional()` with no argument. */
    static method Default() returns (t: Transactional)
      ensures t.propagation == Required
    {
      t := new Transactional();
    }

    /** The decorated function, called once on the shared scoped session. */
    method Call<T>(session: ScopedSession, f: Outcome<T>, faults: Faults) returns (r: Outcome<T>)
      requires session.Valid()
      modifies session
      ensures session.Valid()
      ensures (session.Model(), r) == TransactionalRun(propagation, old(session.scope.value), old(session.Model()), f, faults)
    {
      var result: Outcome<T>;
      match propagation {
        case Required =>
          result := RunRequired(session, f, faults);
        case RequiredNew =>
          result := RunRequiredNew(session, f, faults);
        case Unrecognized(_) =>
          result := RunRequired(session, f, faults);
      }
      if result.Raise? {
        var err := session.Issue(Rollback, faults.rollback);
        r := if err.Some? then Raise(err.value) else result;
      } else {
        r := result;
      }
    }

    /** `_run_required`. */
    method RunRequired<T>(session: ScopedSession, f: Outcome<T>, faults: Faults) returns (r: Outcome<T>)
      requires session.Valid()
      modifies session
      ensures session.Valid()
      ensures (session.Model(), r) == RequiredRun(old(session.scope.value), old(session.Model()), f, faults)
    {
      if f.Return? {
        var err := session.Issue(Commit, faults.commit);
        r := if err.Some? then Raise(err.value) else f;
      } else {
        r := f;
      }
    }

    /** `_run_required_new`. */
    method RunRequiredNew<T>(session: ScopedSession, f: Outcome<T>, faults: Faults) returns (r: Outcome<T>)
      requires session.Valid()
      modifies session
      ensures session.Valid()
      ensures (session.Model(), r) == RequiredNewRun(old(session.scope.value), old(session.Model()), f, faults)
    {
      var err := session.Issue(Begin, None);
      if err.Some? {
        return Raise(err.value);
      }
      r := RunRequired(session, f, faults);
    }
  }
}
