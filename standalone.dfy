/** The `standalone_session` decorator of
    `src/core/database/standalone_session.py`: one fresh session key per
    call, a rollback when the function raises an `Exception`, and in every
    case a removal of the session followed by a reset of the context. */
module Standalone {
  import opened Outcomes
  import opened Session
  import opened Transactions

  /** The function the decorator wraps, described by what it does with the
      session: nothing (`Plain`), a lookup of the scoped session for its own
      statements, which makes the session under the key (`Uses`), or a call
      through a `Transactional` decorator (`Decorated`), the way business
      code uses the two together. */
  datatype Body<T> =
    | Plain(outcome: Outcome<T>)
    | Uses(outcome: Outcome<T>)
    | Decorated(tx: Transactional, outcome: Outcome<T>)

  /** The body run with `key` as the current session key. */
  function BodyRun<T>(key: string, g: Registry, body: Body<T>, faults: Faults): (r: (Registry, Outcome<T>))
    requires Consistent(g)
    ensures Consistent(r.0)
    ensures Confined(Some(key), g, r.0)
  {
    match body
    case Plain(f) => (g, f)
    case Uses(f) => (Resolve(key, g), f)
    case Decorated(tx, f) => TransactionalRun(tx.propagation, Some(key), g, f, faults)
  }

  /** The try block and its `except Exception` clause, with `key` as the
      current session key: the body runs, its value is dropped, and if it
      raised an `Exception` the session is rolled back (an exception from
      the rollback replaces the original). */
  function AttemptRun<T>(key: string, g: Registry, body: Body<T>, faults: Faults): (r: (Registry, Outcome<()>))
    requires Consistent(g)
    ensures Consistent(r.0)
    ensures Confined(Some(key), g, r.0)
  {
    var (g1, o) := BodyRun(key, g, body, faults);
    var o1 := Discard(o);
    if o1.Raise? then
      var (g2, err) := Proxied(Some(key), g1, Rollback, faults.rollback);
      ConfinedTransitive(Some(key), g, g1, g2);
      (g2, if err.Some? then Raise(err.value) else o1)
    else (g1, o1)
  }

  /** The context, the registry and the outcome after one decorated call
      with key `key`, starting from context `context`: the try block, then
      the `finally` block, which removes the session and resets the context.
      When the removal raises, Python leaves the `finally` block there: the
      reset is skipped and the removal's exception is what the caller sees. */
  function StandaloneRun<T>(key: string, context: Option<string>, g: Registry, body: Body<T>, faults: Faults): (r: (Option<string>, Registry, Outcome<()>))
    requires Consistent(g)
    ensures Consistent(r.1)
  {
    var (g1, o) := AttemptRun(key, g, body, faults);
    var (g2, err) := Removal(Some(key), g1, faults.close);
    if err.Some? then (Some(key), g2, Raise(err.value)) else (context, g2, o)
  }

  // ---------------------------------------------------------------------
  // What the decorator promises, path by path
  // ---------------------------------------------------------------------

  /** When the removal succeeds (the close answers without error, or the
      function left no session to close), the caller's context is back (including
      "unset") and the registry holds exactly the keys it held before: the
      fresh key does not leak. */
  lemma StandaloneRestores<T>(key: string, context: Option<string>, g: Registry, body: Body<T>, faults: Faults)
    requires Consistent(g)
    requires key !in g.sessions
    requires faults.close.None? || key !in AttemptRun(key, g, body, faults).0.sessions
    ensures var r := StandaloneRun(key, context, g, body, faults);
            r.0 == context && r.1.sessions == g.sessions
  {
    var (g1, o) := AttemptRun(key, g, body, faults);
    assert g1.sessions - {key} == g.sessions;
  }

  /** Every call the unit of work makes, its own rollback and the close of
      the removal included, goes to the session made for its fresh key, a
      session no other key holds and no earlier call used. */
  lemma StandaloneUsesOwnSession<T>(key: string, context: Option<string>, g: Registry, body: Body<T>, faults: Faults)
    requires Consistent(g)
    requires key !in g.sessions
    ensures var r := StandaloneRun(key, context, g, body, faults);
            && g.log <= r.1.log
            && forall i :: |g.log| <= i < |r.1.log| ==> r.1.log[i].session == AsyncSession(g.created)
  {
    var (g1, o) := AttemptRun(key, g, body, faults);
    assert key in g1.sessions ==> g1.sessions[key] == AsyncSession(g.created);
  }

  /** A removal that raises leaves the fresh key in the registry and, since
      the reset is skipped, current in the context; the caller sees the
      removal's exception. */
  lemma RemoveRaisesSkipsReset<T>(key: string, context: Option<string>, g: Registry, body: Body<T>, faults: Faults, x: Exc)
    requires Consistent(g)
    requires faults.close == Some(x)
    requires key in AttemptRun(key, g, body, faults).0.sessions
    ensures var r := StandaloneRun(key, context, g, body, faults);
            r.0 == Some(key) && key in r.1.sessions && r.2 == Raise(x)
  {
  }

  /** The function returns: its value is dropped and, since it did not use
      the session, nothing is made, issued or removed. */
  lemma PlainReturn<T>(key: string, context: Option<string>, g: Registry, v: T, faults: Faults)
    requires Consistent(g)
    requires key !in g.sessions
    ensures StandaloneRun(key, context, g, Plain(Return(v)), faults) == (context, g, Return(()))
  {
  }

  /** The function is cancelled: no rollback, and the cancellation leaves
      after the `finally` block has run. */
  lemma PlainCancel<T>(key: string, context: Option<string>, g: Registry, faults: Faults)
    requires Consistent(g)
    requires key !in g.sessions
    ensures StandaloneRun<T>(key, context, g, Plain(Cancel), faults) == (context, g, Cancel)
  {
  }

  /** The function raises: a rollback, then the removal's close, on the
      session made for the fresh key; the same exception is re-raised,
      or the rollback's own exception if it raised one. */
  lemma PlainRaise<T>(key: string, context: Option<string>, g: Registry, e: Exc, faults: Faults)
    requires Consistent(g)
    requires key !in g.sessions
    requires faults.close.None?
    ensures var r := StandaloneRun<T>(key, context, g, Plain(Raise(e)), faults);
            var s := AsyncSession(g.created);
            && r.0 == context
            && r.1 == g.(created := g.created + 1, log := g.log + [Entry(s, Rollback), Entry(s, Close)])
            && r.2 == Raise(if faults.rollback.Some? then faults.rollback.value else e)
  {
    assert g.sessions[key := AsyncSession(g.created)] - {key} == g.sessions;
  }

  /** The decorator itself never commits, and rolls back only when the
      function raised an `Exception`. */
  lemma PlainNeverCommits<T>(key: string, context: Option<string>, g: Registry, f: Outcome<T>, faults: Faults)
    requires Consistent(g)
    requires key !in g.sessions
    ensures var r := StandaloneRun(key, context, g, Plain(f), faults);
            forall i :: |g.log| <= i < |r.1.log| ==>
              r.1.log[i].event != Commit && (r.1.log[i].event == Rollback ==> f.Raise?)
  {
  }

  /** A REQUIRED transaction inside the unit of work that returns: one
      commit, then the removal's close; the caller gets `None`. */
  lemma DecoratedReturn<T>(key: string, context: Option<string>, g: Registry, tx: Transactional, v: T, faults: Faults)
    requires Consistent(g)
    requires key !in g.sessions
    requires tx.propagation == Required
    requires faults.commit.None? && faults.close.None?
    ensures var r := StandaloneRun(key, context, g, Decorated(tx, Return(v)), faults);
            var s := AsyncSession(g.created);
            && r.0 == context
            && r.1 == g.(created := g.created + 1, log := g.log + [Entry(s, Commit), Entry(s, Close)])
            && r.2 == Return(())
  {
    assert g.sessions[key := AsyncSession(g.created)] - {key} == g.sessions;
  }

  /** A REQUIRED transaction inside the unit of work whose function raises:
      the transaction rolls back and re-raises, the unit of work rolls back
      again, the session is removed, and the caller gets the original
      exception with the key gone from the registry. */
  lemma DecoratedRaise<T>(key: string, context: Option<string>, g: Registry, tx: Transactional, e: Exc, faults: Faults)
    requires Consistent(g)
    requires key !in g.sessions
    requires tx.propagation == Required
    requires faults.rollback.None? && faults.close.None?
    ensures var r := StandaloneRun<T>(key, context, g, Decorated(tx, Raise(e)), faults);
            var s := AsyncSession(g.created);
            && r.0 == context
            && r.1 == g.(created := g.created + 1, log := g.log + [Entry(s, Rollback), Entry(s, Rollback), Entry(s, Close)])
            && r.2 == Raise(e)
  {
    assert g.sessions[key := AsyncSession(g.created)] - {key} == g.sessions;
  }

  /** A REQUIRED_NEW transaction inside the unit of work that returns:
      begin, commit, then the removal's close; the caller gets `None`. */
  lemma DecoratedNewReturn<T>(key: string, context: Option<string>, g: Registry, tx: Transactional, v: T, faults: Faults)
    requires Consistent(g)
    requires key !in g.sessions
    requires tx.propagation == RequiredNew
    requires faults.commit.None? && faults.close.None?
    ensures var r := StandaloneRun(key, context, g, Decorated(tx, Return(v)), faults);
            var s := AsyncSession(g.created);
            && r.0 == context
            && r.1 == g.(created := g.created + 1, log := g.log + [Entry(s, Begin), Entry(s, Commit), Entry(s, Close)])
            && r.2 == Return(())
  {
    assert g.sessions[key := AsyncSession(g.created)] - {key} == g.sessions;
  }

  /** A function that used the session itself and returns: the removal
      closes the session it made, with no commit and no rollback. */
  lemma UsesReturn<T>(key: string, context: Option<string>, g: Registry, v: T, faults: Faults)
    requires Consistent(g)
    requires key !in g.sessions
    requires faults.close.None?
    ensures var r := StandaloneRun(key, context, g, Uses(Return(v)), faults);
            var s := AsyncSession(g.created);
            && r.0 == context
            && r.1 == g.(created := g.created + 1, log := g.log + [Entry(s, Close)])
            && r.2 == Return(())
  {
    assert g.sessions[key := AsyncSession(g.created)] - {key} == g.sessions;
  }

  // ---------------------------------------------------------------------
  // Units of work one after another
  // ---------------------------------------------------------------------

  /** One call of a decorated function: the key its `uuid4()` produced,
      what the function does, and how the database answers. */
  datatype Unit<T> = Unit(key: string, body: Body<T>, faults: Faults)

  /** The context and the registry after running the units in order. */
  function RunUnits<T>(context: Option<string>, g: Registry, units: seq<Unit<T>>): (r: (Option<string>, Registry))
    requires Consistent(g)
    ensures Consistent(r.1)
    decreases |units|
  {
    if units == [] then (context, g)
    else
      var (c1, g1, _) := StandaloneRun(units[0].key, context, g, units[0].body, units[0].faults);
      RunUnits(c1, g1, units[1..])
  }

  /** Distinct fresh keys, as `uuid4()` provides them. */
  ghost predicate FreshKeys<T>(g: Registry, units: seq<Unit<T>>) {
    && (forall i :: 0 <= i < |units| ==> units[i].key !in g.sessions)
    && (forall i, j :: 0 <= i < j < |units| ==> units[i].key != units[j].key)
  }

  /** However many units of work run, and whichever of the modelled bodies
      their functions are, as long as every removal succeeds the context ends where it started
      and no session is left behind in the registry. */
  lemma {:induction false} UnitsLeaveNoTrace<T>(context: Option<string>, g: Registry, units: seq<Unit<T>>)
    requires Consistent(g)
    requires FreshKeys(g, units)
    requires forall i :: 0 <= i < |units| ==> units[i].faults.close.None?
    ensures RunUnits(context, g, units).0 == context
    ensures RunUnits(context, g, units).1.sessions == g.sessions
    decreases |units|
  {
    if units != [] {
      var u := units[0];
      var (c1, g1, _) := StandaloneRun(u.key, context, g, u.body, u.faults);
      StandaloneRestores(u.key, context, g, u.body, u.faults);
      assert FreshKeys(g1, units[1..]) by {
        forall i | 0 <= i < |units[1..]|
          ensures units[1..][i].key !in g1.sessions
        {
          assert units[1..][i] == units[i + 1];
        }
        forall i, j | 0 <= i < j < |units[1..]|
          ensures units[1..][i].key != units[1..][j].key
        {
          assert units[1..][i] == units[i + 1] && units[1..][j] == units[j + 1];
        }
      }
      assert forall i :: 0 <= i < |units[1..]| ==> units[1..][i].faults.close.None? by {
        forall i | 0 <= i < |units[1..]| ensures units[1..][i].faults.close.None? {
          assert units[1..][i] == units[i + 1];
        }
      }
      UnitsLeaveNoTrace(c1, g1, units[1..]);
    }
  }

  /** `standalone_session(func)` called once. `key` is the `uuid4()` the
      call generates. */
  method StandaloneSession<T>(context: SessionContext, session: ScopedSession, key: string, body: Body<T>, faults: Faults)
    returns (r: Outcome<()>)
    requires session.scope == context
    requires session.Valid()
    modifies context, session
    ensures session.Valid()
    ensures (context.value, session.Model(), r) == StandaloneRun(key, old(context.value), old(session.Model()), body, faults)
  {
    var token := context.Set(key);
    var o: Outcome<()>;
    match body {
      case Plain(f) =>
        o := Discard(f);
      case Uses(f) =>
        var _ := session.Current();
        o := Discard(f);
      case Decorated(tx, f) =>
        var result := tx.Call(session, f, faults);
        o := Discard(result);
    }
    if o.Raise? {
      var err := session.Issue(Rollback, faults.rollback);
      if err.Some? {
        o := Raise(err.value);
      }
    }
    var removeErr := session.Remove(faults.close);
    if removeErr.Some? {
      return Raise(removeErr.value);
    }
    context.Reset(token);
    r := o;
  }
}
