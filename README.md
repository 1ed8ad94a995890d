# Request-scoped sessions and transactions, modelled in Dafny

This project models the database-session plumbing of a FastAPI service built
on SQLAlchemy's asyncio extension, and a bearer-token check:

- **Routing** (`RoutingSession.get_bind`): each statement goes to the writer
  engine when the session is flushing or the statement is an insert, update
  or delete, and to the reader engine otherwise.
- **Session context** (`session_context`, a `ContextVar` without a default):
  `set` returns a token holding the previous value, `reset` restores it,
  `get` fails while nothing is set.
- **Scoped session** (`session`, an `async_scoped_session` keyed by the
  context): every proxied call (`begin`, `commit`, `rollback`, `close`)
  first looks up the session under the current key, creating it on first
  use; `remove` closes the session under the current key, if any, and drops
  the key.
- **`Transactional`**: runs the function, commits, and on an `Exception`
  from the function or the commit rolls back and re-raises. REQUIRED_NEW
  issues a begin first; any other propagation value behaves like REQUIRED.
- **`standalone_session`**: sets a fresh key, runs the function, rolls back
  on an `Exception`, then always calls `remove`, and resets the context unless
  `remove` raised.
- **`authenticate_user`**: refuses an empty token or one that differs from
  the configured secret with a 401 "Unauthorized".

Files: `outcomes.dfy` (module `Outcomes`: `Option`, Python exceptions,
`Outcome` = return / raise / cancel), `session.dfy` (module `Session`),
`transactional.dfy` (module `Transactions`), `standalone.dfy` (module
`Standalone`), `auth.dfy` (module `Auth`).

The SQLAlchemy session is abstract. A session is an identity
(`AsyncSession(id)`, a counter standing in for a fresh object from the
session factory) and every call issued on one is appended to a ghost log of
`Entry(session, event)`. The registry is a `map<string, AsyncSession>`. How
the database answers each kind of call (commit, rollback, close) is an input
(`Faults`). The wrapped business function is described by how it ends
(`Return(v)`, `Raise(e)`, `Cancel`); for `standalone_session` it may also be a
function that looks up the scoped session for its own statements (which makes
the session under the fresh key), or a function decorated with
`Transactional`, which is how the two decorators are used together.

The state that the source mutates is modelled as classes: `SessionContext`
(the context variable), `ScopedSession` (the registry, with `scope` as its
`scopefunc`), `Transactional` (whose one field is fixed by the constructor).
Their methods are proved against pure functions of a `Registry` value
(`Proxied`, `Removal`, `TransactionalRun`, `StandaloneRun`), and the
properties are lemmas about those functions.

Consequences of the code as written that its docstrings do not state:

- If the close inside `session.remove()` raises, Python leaves the `finally`
  block of `standalone_session` at that point, so the context is not reset
  and the fresh key stays in the registry (`Standalone.RemoveRaisesSkipsReset`).
  Restoration of the context is proved for the case where the removal
  succeeds (`Standalone.StandaloneRestores`).
- `Transactional` on its own never removes the session; only
  `standalone_session` does.
- REQUIRED_NEW saves nothing and suspends nothing: it issues one `begin`
  (not awaited in the source) on the same session. The model records that
  call and nothing more.
- With no key set, every proxied call raises the context's `LookupError`.
  REQUIRED then still runs the function and fails at the commit or the
  rollback; REQUIRED_NEW fails at its begin, before the function runs.

## Model

| member | source | states |
|---|---|---|
| `Session.GetBind` | src/core/database/session.py:56-62 | flushing routes to the writer whatever the clause; an Insert, Update or Delete routes to the writer; anything else, or no clause, routes to the reader when not flushing |
| `Session.RoutingIgnoresMapperAndKwargs` | src/core/database/session.py:57-62 | the engine chosen does not depend on `mapper` or `kwargs` |
| `Session.RoutingTable` | src/core/database/session.py:59-62 | the full decision table over every kind of clause and both values of the flushing flag |
| `Session.SessionContext.constructor` | src/core/database/session.py:16 | the variable starts unset: it is declared without a default |
| `Session.SessionContext.Get` | src/core/database/session.py:16-24 | returns the current key when one is set and raises `LookupError` when the variable is unset |
| `Session.SessionContext.Set` | src/core/database/session.py:27-33 | the key becomes current and the returned token holds the previous value, `None` when unset |
| `Session.SessionContext.Reset` | src/core/database/session.py:36-41 | the variable gets back the value the token captured, including "unset" |
| `Session.Resolve` | src/core/database/session.py:72-76 | lookup under a key returns the stored session; a new key gets a new session; other keys keep their sessions |
| `Session.NewKeyGetsUnusedSession` | src/core/database/session.py:65-76 | a session made for a new key is held by no other key and was never used before |
| `Session.SameKeySameSession` | src/core/database/session.py:73-76 | two calls under the same key reach the same session |
| `Session.Proxied` | src/core/database/session.py:73-76 | a proxied call is recorded on the session of the current key and keeps the registry consistent; without a key it raises `LookupError` and changes nothing |
| `Session.Removal` | src/core/database/session.py:73-76 | `remove` closes the current key's session if there is one and drops the key; a failing close keeps the key; without a key it raises `LookupError` |
| `Session.RemoveTwiceIsNoOp` | src/core/database/session.py:73-76 | a second `remove` under the same key closes nothing, raises nothing and changes nothing |
| `Session.ScopedSession.constructor` | src/core/database/session.py:73-76 | the scoped session starts with an empty registry keyed by the context variable |
| `Session.ScopedSession.Current` | src/core/database/session.py:73-76 | the registry's lookup: the session under the current key, created on first use; `LookupError` when no key is set |
| `Session.ScopedSession.Issue` | src/core/database/session.py:73-76 | a proxied `begin`/`commit`/`rollback`/`close` changes the registry exactly as `Proxied` says |
| `Session.ScopedSession.Remove` | src/core/database/session.py:73-76 | `remove` changes the registry exactly as `Removal` says |
| `Session.GetSession` | src/core/database/session.py:79-88 | the session is closed once the consumer finishes, whether it returned, raised or was cancelled; the consumer's outcome passes through unless the close raises |
| `Transactions.RequiredRun` | src/core/database/transactional.py:77-83 | a function that returned is followed by exactly one commit on the current key's session, whose exception, if any, becomes the outcome; a raise or a cancellation passes through with nothing issued; only the current key's session is touched |
| `Transactions.RequiredNewRun` | src/core/database/transactional.py:85-92 | one begin on the current key's session, then as `RequiredRun` (a commit only after a return, its exception becoming the outcome); with no key set it raises `LookupError` before the function and records nothing; only the current key's session is touched |
| `Transactions.TransactionalRun` | src/core/database/transactional.py:46-75 | the decorated call touches only the current key's session, keeps the registry consistent, and lets a cancellation through |
| `Transactions.RequiredSuccess` | src/core/database/transactional.py:77-83 | REQUIRED on success: one commit, no begin, no rollback, the value returned unchanged |
| `Transactions.RequiredNewSuccess` | src/core/database/transactional.py:85-92 | REQUIRED_NEW on success: begin then commit, the value returned unchanged |
| `Transactions.UnrecognizedIsRequired` | src/core/database/transactional.py:63-68 | any propagation value other than the two members behaves exactly like REQUIRED |
| `Transactions.FunctionRaisesRollsBack` | src/core/database/transactional.py:69-71 | when the function raises, no commit is issued, one rollback is, and the same exception is re-raised |
| `Transactions.CommitRaisesRollsBack` | src/core/database/transactional.py:49-71 | a failing commit is inside the try: a rollback follows and the commit's exception is re-raised |
| `Transactions.RollbackRaisesReplaces` | src/core/database/transactional.py:49-71 | whenever a rollback happens (the function raised, or it returned and the commit raised), an exception from the rollback is the one that leaves the decorator |
| `Transactions.CancelSkipsRollback` | src/core/database/transactional.py:69 | a cancellation is not an `Exception`: no commit, no rollback, the cancellation propagates |
| `Transactions.UnsetContextRaises` | src/core/database/transactional.py:49-92 | with no key set the decorator raises `LookupError` (REQUIRED_NEW before the function runs) and records nothing; a REQUIRED cancellation still propagates as such |
| `Transactions.Transactional.constructor` | src/core/database/transactional.py:43-44 | the propagation is the one given |
| `Transactions.Transactional.Default` | src/core/database/transactional.py:43-44 | with no argument the propagation is REQUIRED |
| `Transactions.Transactional.Call` | src/core/database/transactional.py:46-75 | the decorated call changes the registry and ends exactly as `TransactionalRun` says |
| `Transactions.Transactional.RunRequired` | src/core/database/transactional.py:77-83 | `_run_required` changes the registry and ends exactly as `RequiredRun` says |
| `Transactions.Transactional.RunRequiredNew` | src/core/database/transactional.py:85-92 | `_run_required_new` changes the registry and ends exactly as `RequiredNewRun` says |
| `Outcomes.Discard` | src/core/database/standalone_session.py:40 | the function's value is dropped; how it ended, and its exception, are kept |
| `Standalone.BodyRun` | src/core/database/standalone_session.py:40 | the wrapped function runs under the fresh key and touches only that key's session |
| `Standalone.AttemptRun` | src/core/database/standalone_session.py:38-44 | the try block and its `except Exception` clause touch only the fresh key's session and keep the registry consistent |
| `Standalone.StandaloneRun` | src/core/database/standalone_session.py:31-50 | one decorated call keeps the registry consistent |
| `Standalone.StandaloneSession` | src/core/database/standalone_session.py:4-52 | the decorated call changes the context and registry and ends exactly as `StandaloneRun` says |
| `Standalone.StandaloneRestores` | src/core/database/standalone_session.py:33-50 | when the removal succeeds (the close answers without error, or there is no session to close), the context after the call equals the one before (including unset) and the registry holds the same keys as before |
| `Standalone.StandaloneUsesOwnSession` | src/core/database/standalone_session.py:33-47 | every call of the unit of work goes to the session made for its fresh key, which no other key holds |
| `Standalone.RemoveRaisesSkipsReset` | src/core/database/standalone_session.py:45-50 | a failing removal leaves the fresh key current and registered, and its exception is raised |
| `Standalone.PlainReturn` | src/core/database/standalone_session.py:38-50 | on success the result is `None` and, with a function that does not use the session, nothing is issued |
| `Standalone.PlainCancel` | src/core/database/standalone_session.py:41-50 | a cancellation gets no rollback, still runs the `finally` block, and propagates |
| `Standalone.PlainRaise` | src/core/database/standalone_session.py:41-50 | an exception gets a rollback, then the close of the removal, and is re-raised unchanged (or replaced by the rollback's own) |
| `Standalone.PlainNeverCommits` | src/core/database/standalone_session.py:38-50 | the decorator never commits and rolls back only when the function raised |
| `Standalone.DecoratedReturn` | src/core/database/standalone_session.py:38-50 | around a REQUIRED transaction that returns: commit, close, result `None`, key gone |
| `Standalone.DecoratedNewReturn` | src/core/database/standalone_session.py:38-50 | around a REQUIRED_NEW transaction that returns: begin, commit, close on one new session, result `None`, key gone |
| `Standalone.UsesReturn` | src/core/database/standalone_session.py:38-50 | a function that used the session and returns: the session made for the fresh key is closed by the removal, with no commit and no rollback, result `None`, key gone |
| `Standalone.DecoratedRaise` | src/core/database/standalone_session.py:41-50 | around a REQUIRED transaction that raises: rollback by the transaction, rollback by the unit of work, close, the same exception re-raised, key gone |
| `Standalone.RunUnits` | src/core/database/standalone_session.py:31-50 | units of work run one after another keep the registry consistent |
| `Standalone.UnitsLeaveNoTrace` | src/core/database/standalone_session.py:31-50 | any number of units of work with distinct fresh keys and successful removals leave the context and the registry's keys as they found them |
| `Auth.AuthenticateUser` | src/core/fastapi/dependencies/auth.py:9-14 | accepted, returning nothing, exactly when the token is non-empty and equal to the configured secret; otherwise a 401 "Unauthorized" |
| `Auth.EmptyTokenAlwaysRefused` | src/core/fastapi/dependencies/auth.py:13 | an empty token is refused even when the configured secret is empty |

## Left out

- Engine construction, connection pools, `pool_recycle` and `echo`: database I/O; the engines are the two constants `Writer` and `Reader`.
- SQLAlchemy's own behaviour of `AsyncSession`, `sessionmaker` and `async_scoped_session` beyond what the core relies on (lookup under the current key, get-or-create, close-then-clear on `remove`): library code; calls are recorded, transaction state is not tracked.
- Whether the un-awaited `session.begin()` of REQUIRED_NEW really starts a transaction: library behaviour; it is recorded as a call only.
- Suspension of an ambient transaction under REQUIRED_NEW: the source does not implement it.
- Concurrency: interleaved tasks and the copy-on-fork of context variables; one unit of work runs at a time, and distinct keys are distinct registry entries.
- `uuid4()`: the fresh key is an input; its freshness is a precondition of the lemmas.
- The context variable's own checks on tokens (a token used twice, or from another context): library behaviour; `standalone_session` uses each token once, in the context that made it.
- Cancellation of the commit, rollback or close themselves: only the wrapped function can be cancelled in the model.
- `Faults`: each kind of database call answers the same way throughout one unit of work.
- `HTTPBearer` extraction of the credentials, `HTTPException` plumbing, `declarative_base`, and `src/core/config.py` (environment loading and validation): framework and configuration code.
- Transactions.Transactional.Call: the wrapped function is given by how it ends, so "called exactly once" holds by construction rather than being stated.
- Standalone.BodyRun: a function that uses the session is modelled by its lookup alone; the statements it executes and any commit or rollback it issues itself (other than through `Transactional`) are not modelled.
- Session.GetSession: the consumer is given only by how it ends; its own calls on the session before the close are not modelled.
- Session.GetBind: `_flushing` is an input, not derived from the session's flush state.
