/**
 * Concrete scenarios for the interceptor and the service, modelled on the
 * repository's unit tests: a fresh service and interceptor, one pooled
 * connection with auto-commit on, and an advised method carrying a bare
 * `@Transactional`.
 */
module Scenarios {
  import opened Wrappers
  import opened Exceptions
  import opened Jdbc
  import opened Policy
  import opened PersistService
  import opened Interceptor

  const NO_FAULTS: Faults := Faults(false, false, false)

  /** The test class's `transaction()` method and the test class itself. */
  const TRANSACTION: MethodId := 0
  const NESTED: MethodId := 1
  const TEST_CLASS: TypeId := 0

  /** `transaction()` carries the default annotation; NESTED asks to roll back on every Exception. */
  const META: Metadata := Metadata(map[TRANSACTION := DEFAULT, NESTED := Transactional([EXCEPTION], [])], map[])

  /** A normal return: begin, commit once, end; the result comes back unchanged. */
  method UnitOfWorkEnds() returns (r: Outcome<Value>, history: seq<ConnOp>, working: bool)
    ensures r == Normal(42)
    ensures history == [ConnOp.SetAutoCommit(false), ConnOp.Commit(true), ConnOp.SetAutoCommit(true), ConnOp.Close(true)]
    ensures !working
  {
    StandardWellFormed();
    var service := new JooqPersistService(0, None, None);
    var interceptor := new JdbcLocalTxnInterceptor(service, META, STANDARD);
    var conn := new Connection(true);
    NormalReturnCommitsOnce(STANDARD, DEFAULT, 42, true, NO_FAULTS);
    r := interceptor.Invoke(Call(TRANSACTION, TEST_CLASS, Returns(42)), conn, NO_FAULTS);
    history := conn.history;
    working := service.IsWorking();
  }

  /** A checked Exception under the default policy: commit, rethrow, end. */
  method UnitOfWorkEndsOnException() returns (r: Outcome<Value>, history: seq<ConnOp>, working: bool)
    ensures r == Abrupt(Raised(Throwable(1, EXCEPTION)))
    ensures history == [ConnOp.SetAutoCommit(false), ConnOp.Commit(true), ConnOp.SetAutoCommit(true), ConnOp.Close(true)]
    ensures !working
  {
    StandardWellFormed();
    var service := new JooqPersistService(0, None, None);
    var interceptor := new JdbcLocalTxnInterceptor(service, META, STANDARD);
    var conn := new Connection(true);
    var t := Throwable(1, EXCEPTION);
    DefaultPolicyPaths(STANDARD, t, NO_FAULTS);
    r := interceptor.Invoke(Call(TRANSACTION, TEST_CLASS, Throws(t)), conn, NO_FAULTS);
    history := conn.history;
    working := service.IsWorking();
  }

  /** A RuntimeException under the default policy: roll back, rethrow, end. */
  method UnitOfWorkEndsOnRollbackException() returns (r: Outcome<Value>, history: seq<ConnOp>, working: bool)
    ensures r == Abrupt(Raised(Throwable(1, RUNTIME_EXCEPTION)))
    ensures history == [ConnOp.SetAutoCommit(false), ConnOp.Rollback(true), ConnOp.SetAutoCommit(true), ConnOp.Close(true)]
    ensures !working
  {
    StandardWellFormed();
    var service := new JooqPersistService(0, None, None);
    var interceptor := new JdbcLocalTxnInterceptor(service, META, STANDARD);
    var conn := new Connection(true);
    var t := Throwable(1, RUNTIME_EXCEPTION);
    DefaultPolicyPaths(STANDARD, t, NO_FAULTS);
    r := interceptor.Invoke(Call(TRANSACTION, TEST_CLASS, Throws(t)), conn, NO_FAULTS);
    history := conn.history;
    working := service.IsWorking();
  }

  /**
   * A nested advised call joins the outer transaction: its own policy would
   * roll back on the checked Exception it throws, but the outer call's
   * default policy classifies it, so the transaction commits. Both policies
   * end up memoised.
   */
  method NestedCallJoins() returns (r: Outcome<Value>, history: seq<ConnOp>, cached: map<MethodId, Transactional>)
    ensures r == Abrupt(Raised(Throwable(1, EXCEPTION)))
    ensures history == [ConnOp.SetAutoCommit(false), ConnOp.Commit(true), ConnOp.SetAutoCommit(true), ConnOp.Close(true)]
    ensures cached == map[TRANSACTION := DEFAULT, NESTED := Transactional([EXCEPTION], [])]
  {
    StandardWellFormed();
    var service := new JooqPersistService(0, None, None);
    var interceptor := new JdbcLocalTxnInterceptor(service, META, STANDARD);
    var conn := new Connection(true);
    var t := Throwable(1, EXCEPTION);
    DefaultPolicyPaths(STANDARD, t, NO_FAULTS);
    var inner := Call(NESTED, TEST_CLASS, Throws(t));
    r := interceptor.Invoke(Call(TRANSACTION, TEST_CLASS, Calls(inner)), conn, NO_FAULTS);
    history := conn.history;
    cached := interceptor.cache;
  }

  /**
   * A thrown Error skips the catch: auto-commit stays off and the unit of
   * work stays open with the flag set. A later call on the same context
   * therefore joins that open transaction and never commits.
   */
  method ErrorLeavesWorkOpen()
    returns (first: Outcome<Value>, second: Outcome<Value>, history: seq<ConnOp>, working: bool, flag: bool)
    ensures first == Abrupt(Raised(Throwable(1, ERROR)))
    ensures second == Normal(7)
    ensures history == [ConnOp.SetAutoCommit(false)]
    ensures working && flag
  {
    StandardWellFormed();
    var service := new JooqPersistService(0, None, None);
    var interceptor := new JdbcLocalTxnInterceptor(service, META, STANDARD);
    var conn := new Connection(true);
    var t := Throwable(1, ERROR);
    ErrorIsNotException(STANDARD, ERROR);
    first := interceptor.Invoke(Call(TRANSACTION, TEST_CLASS, Throws(t)), conn, NO_FAULTS);
    second := interceptor.Invoke(Call(TRANSACTION, TEST_CLASS, Returns(7)), null, NO_FAULTS);
    history := conn.history;
    working := service.IsWorking();
    flag := interceptor.didWeStartWork;
  }

  /**
   * The flag is kept per interceptor, not per invocation. After an Error has
   * left it set, the work is ended and begun again directly through the unit
   * of work (as a per-request filter does). The next advised call finds
   * auto-commit on and the stale flag set, so it ends work it did not begin.
   */
  method StaleFlagEndsForeignWork()
    returns (first: Outcome<Value>, second: Outcome<Value>, history: seq<ConnOp>, working: bool, flag: bool)
    ensures first == Abrupt(Raised(Throwable(1, ERROR)))
    ensures second == Normal(1)
    ensures history == [ConnOp.SetAutoCommit(false), ConnOp.Commit(true), ConnOp.SetAutoCommit(true), ConnOp.Close(true)]
    ensures !working && !flag
  {
    StandardWellFormed();
    var service := new JooqPersistService(0, None, None);
    var interceptor := new JdbcLocalTxnInterceptor(service, META, STANDARD);
    var c1 := new Connection(true);
    ErrorIsNotException(STANDARD, ERROR);
    first := interceptor.Invoke(Call(TRANSACTION, TEST_CLASS, Throws(Throwable(1, ERROR))), c1, NO_FAULTS);
    var ended := service.End(false);
    var c2 := new Connection(true);
    var begun := service.Begin(c2);
    NormalReturnCommitsOnce(STANDARD, DEFAULT, 1, true, NO_FAULTS);
    second := interceptor.Invoke(Call(TRANSACTION, TEST_CLASS, Returns(1)), null, NO_FAULTS);
    history := c2.history;
    working := service.IsWorking();
    flag := interceptor.didWeStartWork;
  }

  /**
   * A pooled connection handed out with auto-commit already off: invoke
   * begins the work, then joins a transaction nobody opened, so nothing is
   * committed and the work is never ended.
   */
  method PooledConnectionWithoutAutoCommit() returns (r: Outcome<Value>, history: seq<ConnOp>, working: bool, flag: bool)
    ensures r == Normal(5)
    ensures history == []
    ensures working && flag
  {
    StandardWellFormed();
    var service := new JooqPersistService(0, None, None);
    var interceptor := new JdbcLocalTxnInterceptor(service, META, STANDARD);
    var conn := new Connection(false);
    r := interceptor.Invoke(Call(TRANSACTION, TEST_CLASS, Returns(5)), conn, NO_FAULTS);
    history := conn.history;
    working := service.IsWorking();
    flag := interceptor.didWeStartWork;
  }

  /** begin twice fails and keeps the first binding; after end, begin succeeds again. */
  method BeginTwiceThenRebegin()
    returns (first: Outcome<()>, second: Outcome<()>, ended: Outcome<()>, third: Outcome<()>, bound: bool)
    ensures first == Normal(()) && second == Abrupt(IllegalState)
    ensures ended == Normal(()) && third == Normal(())
    ensures bound
  {
    var service := new JooqPersistService(0, None, None);
    var c1 := new Connection(true);
    var c2 := new Connection(true);
    first := service.Begin(c1);
    second := service.Begin(c2);
    assert service.conn == c1;
    ended := service.End(false);
    third := service.Begin(c2);
    bound := service.conn == c2;
  }

  /** end with nothing bound is a no-op, however often it is called. */
  method RepeatedEnd() returns (first: Outcome<()>, second: Outcome<()>, history: seq<ConnOp>)
    ensures first == Normal(()) && second == Normal(())
    ensures history == [ConnOp.Close(true)]
  {
    var service := new JooqPersistService(0, None, None);
    var conn := new Connection(true);
    var begun := service.Begin(conn);
    var closed := service.End(false);
    first := service.End(false);
    second := service.End(false);
    history := conn.history;
  }
}
