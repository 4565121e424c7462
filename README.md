# guice-persist-jooq: the transaction interceptor and the unit of work

This project models the core of guice-persist-jooq, which brings Guice Persist's `@Transactional` to jOOQ over plain JDBC. It then proves properties of that model. The core has two classes:

- `JooqPersistService` is the unit of work.
  - `begin` acquires a JDBC connection from the data source. It builds a jOOQ query factory, either from a supplied `Configuration` or on the connection with the dialect and the optional `Settings`. It then binds the connection and the factory to the current thread.
  - `end` closes the connection and unbinds both.
  - `get` begins work implicitly.
  - `isWorking` and `getConnectionWrapper` report the binding.
- `JdbcLocalTxnInterceptor` wraps each call of an advised method.
  - If no unit of work is active, it begins one and remembers that it did (`didWeStartWork`).
  - It finds the call's `@Transactional` policy. It looks first in a memo table keyed by method, then at the method's annotation, then at the target class's annotation, and finally uses the default.
  - If auto-commit is already off, the call joins and runs untouched. Normally that means an enclosing advised call has opened the transaction. A connection that the pool hands out with auto-commit already off is joined the same way: work is begun, nothing is committed, and the work is never ended.
  - Otherwise it turns auto-commit off and runs the call. On a normal return it commits. On an `Exception` it rolls back or commits, as `rollbackOn`/`ignore` decide, and rethrows. It then turns auto-commit back on and ends the unit of work it began.

How the model is built:

- **Exceptions.** The Java class table is a single-inheritance parent map (`Exceptions`). Instance-of is `IsSubclassOf` over that map. What a call can throw is `Thrown`: either the advised method's own throwable, or one of the failures the persistence layer raises.
- **Connection.** The JDBC connection is a class (`Jdbc.Connection`). It records every `setAutoCommit`, `commit`, `rollback` and `close` in a history. This makes the order and number of these calls part of the proved contracts.
- **Unit of work.** The service's thread-local bindings become two fields of one `JooqPersistService` object, for one execution context.
- **Interceptor.** The interceptor is a class with the `didWeStartWork` flag and the `methodsTransactionals` memo table as fields.
- **Advised calls.** An advised call is data: it returns a value, throws a throwable, or calls another advised method. The nested case goes through `Invoke` again, so joining is exercised by the proofs.
- **Failures.** Whether commit, rollback or close fail is given by a `Faults` argument. The connection the data source would hand out is an argument too, and `null` stands for `getConnection` throwing.
- **Boundary protocol.** What the interceptor does once it has opened a transaction boundary is written once as a function, `Interceptor.OpenBoundary`. The methods are proved against it, and the lemmas about it state the promised behaviour.

Behaviours of the code worth knowing:

- After a rollback, auto-commit is turned back on too (lines 89-90 run after either branch), so the guarded `finally` ends owned work after a rollback as well. Work stays open in these cases:
  - the rollback or commit in the catch throws;
  - the throwable is not an `Exception` (an `Error`);
  - closing the connection fails;
  - the connection arrived with auto-commit already off, so the call joined.
- The default policy is that of a bare `@Transactional`: it rolls back on `RuntimeException` only and ignores nothing. A checked exception under the default policy therefore commits.
- `didWeStartWork` belongs to the interceptor and the thread, not to a single invocation. Joining calls return before either `finally`, so they neither read nor clear it. After an `Error` has left it set, the work can be ended and begun again directly through `UnitOfWork`, as a per-request filter does. The next advised call then finds auto-commit on and the flag still set, so it ends work it did not begin.

## Model

| member | source | states |
|---|---|---|
| Exceptions.SubclassTransitive | src/main/java/com/adamlewis/guice/persist/jooq/JdbcLocalTxnInterceptor.java:161 | instance-of (`isInstance`) over the class table is transitive |
| Exceptions.SuperclassesAreChained | src/main/java/com/adamlewis/guice/persist/jooq/JdbcLocalTxnInterceptor.java:82 | two superclasses of one class are related by instance-of (single inheritance) |
| Exceptions.ErrorIsNotException | src/main/java/com/adamlewis/guice/persist/jooq/JdbcLocalTxnInterceptor.java:82 | every subclass of Error escapes `catch (Exception e)` |
| Exceptions.LibraryFailuresAreRuntime | src/main/java/com/adamlewis/guice/persist/jooq/JooqPersistService.java:96-98 | every failure the layer raises itself (IllegalState, wrapped SQLException, DataAccessException) is a RuntimeException and so is caught by `catch (Exception e)` |
| Exceptions.StandardWellFormed | src/main/java/com/adamlewis/guice/persist/jooq/JdbcLocalTxnInterceptor.java:82 | the standard class table is acyclic and places Exception, Error and RuntimeException as Java does |
| Jdbc.Connection.SetAutoCommit | src/main/java/com/adamlewis/guice/persist/jooq/JdbcLocalTxnInterceptor.java:76 | sets the auto-commit mode and records exactly that one call |
| Jdbc.Connection.Commit | src/main/java/com/adamlewis/guice/persist/jooq/JdbcLocalTxnInterceptor.java:86 | records one commit, keeps the auto-commit mode, and throws DataAccessException exactly when the commit fails |
| Jdbc.Connection.Rollback | src/main/java/com/adamlewis/guice/persist/jooq/JdbcLocalTxnInterceptor.java:177 | records one rollback, keeps the auto-commit mode, and throws DataAccessException exactly when the rollback fails |
| Jdbc.Connection.Close | src/main/java/com/adamlewis/guice/persist/jooq/JooqPersistService.java:129-134 | records one close and throws the wrapping RuntimeException exactly when the close fails |
| Policy.FirstMatch | src/main/java/com/adamlewis/guice/persist/jooq/JdbcLocalTxnInterceptor.java:158-161 | the index found is the first class in declared order that the exception is an instance of; none is found only when no class matches |
| Policy.RollsBackIffMatches | src/main/java/com/adamlewis/guice/persist/jooq/JdbcLocalTxnInterceptor.java:152-186 | rollback happens if and only if some rollbackOn class matches and no ignore class does |
| Policy.MatchesSameClasses | src/main/java/com/adamlewis/guice/persist/jooq/JdbcLocalTxnInterceptor.java:158-172 | whether a class list matches depends only on the set of classes in it |
| Policy.RollbackIgnoresOrder | src/main/java/com/adamlewis/guice/persist/jooq/JdbcLocalTxnInterceptor.java:158-183 | reordering or repeating the rollbackOn or ignore classes never changes the rollback decision |
| Policy.IgnoreSupersedesRollback | src/main/java/com/adamlewis/guice/persist/jooq/JdbcLocalTxnInterceptor.java:164-172 | an exception matching any ignore class is never rolled back |
| Policy.MatchesSubclass | src/main/java/com/adamlewis/guice/persist/jooq/JdbcLocalTxnInterceptor.java:161 | a rollbackOn or ignore list that matches a class matches every subclass of it too |
| Policy.DefaultPolicyRollsBackLibraryFailures | src/main/java/com/adamlewis/guice/persist/jooq/JdbcLocalTxnInterceptor.java:43-45 | under a bare `@Transactional`, every failure the persistence layer raises itself rolls back |
| Policy.DefaultPolicyDecision | src/main/java/com/adamlewis/guice/persist/jooq/JdbcLocalTxnInterceptor.java:43-45 | under a bare `@Transactional`, an exception rolls back if and only if it is a RuntimeException |
| Policy.ResolveMiss | src/main/java/com/adamlewis/guice/persist/jooq/JdbcLocalTxnInterceptor.java:128-140 | on a cache miss the policy is the method's annotation, else the target class's, else the default; it is memoised exactly when an annotation was found, and no other entry changes |
| Policy.ResolveHit | src/main/java/com/adamlewis/guice/persist/jooq/JdbcLocalTxnInterceptor.java:123-126 | a cache hit returns the memoised policy and leaves the table unchanged |
| Policy.ResolveKeepsCacheSound | src/main/java/com/adamlewis/guice/persist/jooq/JdbcLocalTxnInterceptor.java:135-137 | every memoised policy is an annotation that is present: the method's own if it has one, else a class's |
| Policy.CacheTransparentForAnnotatedMethods | src/main/java/com/adamlewis/guice/persist/jooq/JdbcLocalTxnInterceptor.java:121-143 | for a method carrying its own annotation, the memo table returns exactly what reflection would |
| Policy.ResolveIdempotent | src/main/java/com/adamlewis/guice/persist/jooq/JdbcLocalTxnInterceptor.java:121-143 | resolving the same call twice gives the same policy and leaves the table as the first resolution left it |
| Policy.CacheKeyIgnoresTargetClass | src/main/java/com/adamlewis/guice/persist/jooq/JdbcLocalTxnInterceptor.java:38 | for every method without its own annotation: once a class-level policy is memoised, a call on a target of any class gets that policy, which differs from reflection's answer whenever that class is annotated differently |
| Policy.CacheKeyIgnoresTargetClassInstance | src/main/java/com/adamlewis/guice/persist/jooq/JdbcLocalTxnInterceptor.java:123-136 | one instance: a method called on two classes that roll back on different exceptions gets the first class's policy both times |
| PersistService.FactoryChoice | src/main/java/com/adamlewis/guice/persist/jooq/JooqPersistService.java:100-116 | a supplied Configuration wins and Settings are then ignored; otherwise the factory uses the dialect, plus the Settings when present |
| PersistService.JooqPersistService.constructor | src/main/java/com/adamlewis/guice/persist/jooq/JooqPersistService.java:60-64 | a new service has no work active and keeps its dialect, settings and configuration |
| PersistService.JooqPersistService.WorkingIffConnectionBound | src/main/java/com/adamlewis/guice/persist/jooq/JooqPersistService.java:79-85 | isWorking() holds if and only if getConnectionWrapper() returns a connection |
| PersistService.JooqPersistService.Begin | src/main/java/com/adamlewis/guice/persist/jooq/JooqPersistService.java:87-119 | throws IllegalStateException while working and keeps the bindings; throws and binds nothing when no connection can be acquired; otherwise binds the connection and the chosen factory |
| PersistService.JooqPersistService.End | src/main/java/com/adamlewis/guice/persist/jooq/JooqPersistService.java:121-137 | a no-op when idle; otherwise closes the connection exactly once and unbinds both, or keeps both and throws if the close fails |
| PersistService.JooqPersistService.Get | src/main/java/com/adamlewis/guice/persist/jooq/JooqPersistService.java:66-77 | returns the bound factory, beginning work first when idle; a failed begin propagates and binds nothing |
| Interceptor.NormalReturnCommitsOnce | src/main/java/com/adamlewis/guice/persist/jooq/JdbcLocalTxnInterceptor.java:104-118 | without connection failures, a normal return commits exactly once, re-enables auto-commit, closes owned work, and returns the result unchanged |
| Interceptor.NormalReturnEndsOwnedWork | src/main/java/com/adamlewis/guice/persist/jooq/JdbcLocalTxnInterceptor.java:104-115 | after a normal return the flag is cleared and owned work is closed even when the commit throws; the commit failure propagates unless the close fails too |
| Interceptor.ExceptionPath | src/main/java/com/adamlewis/guice/persist/jooq/JdbcLocalTxnInterceptor.java:82-100 | a thrown Exception leads to exactly one rollback or commit, chosen by the policy; then auto-commit is re-enabled and owned work is closed; the original exception is rethrown unless the close fails |
| Interceptor.FailuresLeaveWorkOpen | src/main/java/com/adamlewis/guice/persist/jooq/JdbcLocalTxnInterceptor.java:82-100 | a failing rollback or commit in the catch, or a thrown non-Exception, leaves auto-commit off, the work open and the flag unchanged, and that failure propagates |
| Interceptor.DefaultPolicyPaths | src/main/java/com/adamlewis/guice/persist/jooq/JdbcLocalTxnInterceptor.java:82-100 | under the default policy a RuntimeException rolls back and a checked Exception commits; both are rethrown and owned work ends |
| Interceptor.JdbcLocalTxnInterceptor.constructor | src/main/java/com/adamlewis/guice/persist/jooq/JdbcLocalTxnInterceptor.java:50-55 | a new interceptor has an empty memo table and has started no work |
| Interceptor.JdbcLocalTxnInterceptor.ReadTransactionMetadata | src/main/java/com/adamlewis/guice/persist/jooq/JdbcLocalTxnInterceptor.java:121-143 | returns the policy from the memo table, else the method, else the target class, else the default, and memoises only found annotations |
| Interceptor.JdbcLocalTxnInterceptor.RollbackIfNecessary | src/main/java/com/adamlewis/guice/persist/jooq/JdbcLocalTxnInterceptor.java:152-186 | issues one rollback exactly when the policy rolls back and otherwise touches nothing; returns true (go on and commit) exactly when it did not roll back |
| Interceptor.JdbcLocalTxnInterceptor.Proceed | src/main/java/com/adamlewis/guice/persist/jooq/JdbcLocalTxnInterceptor.java:72 | the advised call's outcome is passed on unchanged; nested calls join, so the connection, bindings and flag are untouched |
| Interceptor.JdbcLocalTxnInterceptor.CatchException | src/main/java/com/adamlewis/guice/persist/jooq/JdbcLocalTxnInterceptor.java:82-90 | exactly one rollback or commit, chosen by the policy; auto-commit is re-enabled only if that call succeeded, otherwise its failure is returned |
| Interceptor.JdbcLocalTxnInterceptor.EndOwnedWork | src/main/java/com/adamlewis/guice/persist/jooq/JdbcLocalTxnInterceptor.java:96-99 | clears the flag, then ends the unit of work by closing the connection once |
| Interceptor.JdbcLocalTxnInterceptor.CommitNormally | src/main/java/com/adamlewis/guice/persist/jooq/JdbcLocalTxnInterceptor.java:104-118 | the normal-return path performs exactly the connection calls and result of OpenBoundary |
| Interceptor.JdbcLocalTxnInterceptor.HandleThrown | src/main/java/com/adamlewis/guice/persist/jooq/JdbcLocalTxnInterceptor.java:80-100 | the thrown path (catch and guarded finally) performs exactly the connection calls and result of OpenBoundary |
| Interceptor.JdbcLocalTxnInterceptor.Transact | src/main/java/com/adamlewis/guice/persist/jooq/JdbcLocalTxnInterceptor.java:75-118 | turns auto-commit off once, then follows OpenBoundary for the call's outcome: result, connection calls, flag and bindings |
| Interceptor.JdbcLocalTxnInterceptor.Invoke | src/main/java/com/adamlewis/guice/persist/jooq/JdbcLocalTxnInterceptor.java:57-119 | a failed implicit begin changes nothing; otherwise all nested policies are memoised; with auto-commit off the call joins and passes its outcome through untouched; with it on, the call follows OpenBoundary under the resolved policy |
| Scenarios.UnitOfWorkEnds | src/test/java/com/adamlewis/guice/persist/jooq/JdbcLocalTxnInterceptorTest.java:54-61 | a normal return begins work, commits once, restores auto-commit and ends the work |
| Scenarios.UnitOfWorkEndsOnException | src/test/java/com/adamlewis/guice/persist/jooq/JdbcLocalTxnInterceptorTest.java:63-76 | a checked Exception under the default policy commits, is rethrown, and the work ends |
| Scenarios.UnitOfWorkEndsOnRollbackException | src/test/java/com/adamlewis/guice/persist/jooq/JdbcLocalTxnInterceptorTest.java:78-91 | a RuntimeException rolls back, is rethrown, and the work ends |
| Scenarios.NestedCallJoins | src/main/java/com/adamlewis/guice/persist/jooq/JdbcLocalTxnInterceptor.java:70-73 | an inner advised call joins: the outer policy alone decides, the transaction commits once, and both policies are memoised |
| Scenarios.ErrorLeavesWorkOpen | src/main/java/com/adamlewis/guice/persist/jooq/JdbcLocalTxnInterceptor.java:94-100 | an Error skips the catch, so auto-commit stays off and the work stays open; the next call joins it and never commits |
| Scenarios.StaleFlagEndsForeignWork | src/main/java/com/adamlewis/guice/persist/jooq/JdbcLocalTxnInterceptor.java:48 | after an Error leaves the flag set, work ended and begun again outside the interceptor is committed and ended by the next advised call, which did not begin it |
| Scenarios.PooledConnectionWithoutAutoCommit | src/main/java/com/adamlewis/guice/persist/jooq/JdbcLocalTxnInterceptor.java:62-73 | a connection handed out with auto-commit off makes the first call begin work and join: no connection call is made, and the work stays open with the flag set |
| Scenarios.BeginTwiceThenRebegin | src/main/java/com/adamlewis/guice/persist/jooq/JooqPersistService.java:87-91 | a second begin fails and keeps the first binding; after end, begin succeeds again |
| Scenarios.RepeatedEnd | src/main/java/com/adamlewis/guice/persist/jooq/JooqPersistService.java:121-127 | end with no work active is a no-op however often it is called |

## Left out

- Threads. `ThreadLocal` bindings, the `didWeStartWork` thread-local and the concurrent memo table are modelled for one execution context. Races between threads are not modelled.
- The memo table `methodsTransactionals` is a static field of the Java class, shared by every interceptor instance. Here it is a field of the one interceptor.
- Logging (slf4j) is not modelled. It has no effect on the state.
- `start` and `stop` of JooqPersistService are not modelled: they do nothing.
- Failures of `setAutoCommit` and `getAutoCommit` are not modelled. Only commit, rollback, close and acquisition fail.
- jOOQ itself is not modelled: `DSL.using` and the `DSLContext` it returns are a tagged handle (`Factory`). The model does not capture that a factory built from a `Configuration` uses that configuration's own connection provider rather than the acquired connection.
- PersistService.JooqPersistService.Get: the `checkState` after the implicit begin can never fail in this model, because a successful begin always binds a factory. The IllegalStateException it would raise is therefore absent.
- Guice wiring is not modelled: JooqPersistModule, the providers, and `UnitOfWork` being the same object as the service. How the `@Transactional` annotation is found by reflection is also not modelled. Annotations are given as two maps, keyed by method and by target class.
- Interceptor.JdbcLocalTxnInterceptor.Invoke: a nested call is modelled as the body of the advised method passing on its inner call's outcome unchanged. Code that catches the inner outcome and then continues is not modelled.
