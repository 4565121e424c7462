/**
 * JdbcLocalTxnInterceptor: wraps an advised method call in a JDBC
 * transaction. It begins a unit of work when none is active, joins an
 * enclosing transaction when auto-commit is already off, and otherwise
 * turns auto-commit off, runs the call, commits or rolls back by the
 * call's `@Transactional` policy, turns auto-commit back on and ends the
 * unit of work it began.
 *
 * The advised call is data: it returns a value, throws, or calls another
 * advised method and passes on whatever that yields, so nested calls run
 * through the interceptor again. Commit, rollback and close failures are
 * parameters; the connection the data source hands out is a parameter too.
 */
module Interceptor {
  import opened Wrappers
  import opened Exceptions
  import opened Jdbc
  import opened Policy
  import opened PersistService

  /** An opaque method result. */
  type Value = int

  /** One invocation of an advised method on a target object of class `target`. */
  datatype Call = Call(advised: MethodId, target: TypeId, body: Body)

  /** What the advised method does when it proceeds. */
  datatype Body =
    | Returns(v: Value)
    | Throws(t: Throwable)
    | Calls(inner: Call)    // calls another advised method and passes its outcome on

  /** How the advised method completes, transaction handling aside. */
  function Yield(body: Body): Outcome<Value> {
    match body
    case Returns(v) => Normal(v)
    case Throws(t) => Abrupt(Raised(t))
    case Calls(inner) => Yield(inner.body)
  }

  /** The policy memo table after `call` and every advised call nested in it have resolved their policies. */
  function CacheAfter(meta: Metadata, cache: map<MethodId, Transactional>, call: Call): map<MethodId, Transactional>
    decreases call
  {
    var next := Resolve(meta, cache, call.advised, call.target).cache;
    match call.body
    case Calls(inner) => CacheAfter(meta, next, inner)
    case _ => next
  }

  /** Which of the connection calls made during one invocation fail. */
  datatype Faults = Faults(commitFails: bool, rollbackFails: bool, closeFails: bool)

  /**
   * The effect of an invocation that opened the transaction boundary, from
   * the moment auto-commit was turned off: how the invocation completes,
   * the connection calls that follow, whether the unit of work was ended,
   * and the didWeStartWork flag afterwards.
   */
  datatype Exit = Exit(result: Outcome<Value>, ops: seq<ConnOp>, ended: bool, owner: bool)

  /**
   * The boundary protocol of invoke, given the policy, how the advised call
   * completed (`y`) and whether this context's didWeStartWork flag is set.
   */
  function OpenBoundary(h: Hierarchy, p: Transactional, y: Outcome<Value>, owner: bool, f: Faults): Exit {
    match y
    case Normal(_) =>
      var commitOps := if f.commitFails then [ConnOp.Commit(false)] else [ConnOp.Commit(true), ConnOp.SetAutoCommit(true)];
      var committed: Outcome<Value> := if f.commitFails then Abrupt(CommitFailed) else y;
      if owner then
        Exit(if f.closeFails then Abrupt(CloseFailed) else committed, commitOps + [ConnOp.Close(!f.closeFails)], !f.closeFails, false)
      else
        Exit(committed, commitOps, false, false)
    case Abrupt(x) =>
      if !IsException(h, x) then
        Exit(y, [], false, owner)
      else
        var rollback := RollsBack(h, p, ClassOf(x));
        var fails := if rollback then f.rollbackFails else f.commitFails;
        var op := if rollback then ConnOp.Rollback(!fails) else ConnOp.Commit(!fails);
        if fails then
          Exit(Abrupt(if rollback then RollbackFailed else CommitFailed), [op], false, owner)
        else if owner then
          Exit(if f.closeFails then Abrupt(CloseFailed) else y, [op, ConnOp.SetAutoCommit(true), ConnOp.Close(!f.closeFails)], !f.closeFails, false)
        else
          Exit(y, [op, ConnOp.SetAutoCommit(true)], false, false)
  }

  /**
   * A normal return commits once and re-enables auto-commit; the owner of
   * the unit of work then closes it; the result is passed on unchanged.
   */
  lemma NormalReturnCommitsOnce(h: Hierarchy, p: Transactional, v: Value, owner: bool, f: Faults)
    requires !f.commitFails && !f.closeFails
    ensures OpenBoundary(h, p, Normal(v), owner, f)
      == Exit(Normal(v), [ConnOp.Commit(true), ConnOp.SetAutoCommit(true)] + (if owner then [ConnOp.Close(true)] else []), owner, false)
  {
  }

  /**
   * On a normal return the flag is always cleared and the unit of work is
   * closed exactly when the flag was set, even when the commit throws; the
   * commit failure propagates unless closing fails as well.
   */
  lemma NormalReturnEndsOwnedWork(h: Hierarchy, p: Transactional, v: Value, owner: bool, f: Faults)
    ensures var e := OpenBoundary(h, p, Normal(v), owner, f);
      && !e.owner
      && (owner <==> ConnOp.Close(!f.closeFails) in e.ops)
      && (e.ended <==> owner && !f.closeFails)
      && (f.commitFails && !(owner && f.closeFails) ==> e.result == Abrupt(CommitFailed))
      && (f.commitFails ==> ConnOp.SetAutoCommit(true) !in e.ops)
  {
  }

  /**
   * When the advised call throws an Exception and neither commit nor
   * rollback fails: exactly one of them is issued, by the policy, then
   * auto-commit is re-enabled; the owner closes the unit of work; the caught
   * throwable itself propagates unless closing fails.
   */
  lemma ExceptionPath(h: Hierarchy, p: Transactional, x: Thrown, owner: bool, f: Faults)
    requires IsException(h, x)
    requires !f.commitFails && !f.rollbackFails
    ensures var e := OpenBoundary(h, p, Abrupt(x), owner, f);
      var decided := if RollsBack(h, p, ClassOf(x)) then ConnOp.Rollback(true) else ConnOp.Commit(true);
      && e.ops == [decided, ConnOp.SetAutoCommit(true)] + (if owner then [ConnOp.Close(!f.closeFails)] else [])
      && e.result == (if owner && f.closeFails then Abrupt(CloseFailed) else Abrupt(x))
      && (e.ended <==> owner && !f.closeFails)
      && !e.owner
  {
  }

  /**
   * Two failures leave the unit of work open: a commit or rollback that
   * throws inside the catch, and a throwable that is not an Exception. In
   * both, auto-commit stays off, nothing is closed, the flag keeps its
   * value, and the failure propagates.
   */
  lemma FailuresLeaveWorkOpen(h: Hierarchy, p: Transactional, x: Thrown, owner: bool, f: Faults)
    requires !IsException(h, x) || (if RollsBack(h, p, ClassOf(x)) then f.rollbackFails else f.commitFails)
    ensures var e := OpenBoundary(h, p, Abrupt(x), owner, f);
      && !e.ended
      && e.owner == owner
      && ConnOp.SetAutoCommit(true) !in e.ops
      && |e.ops| <= 1
      && e.result == (if !IsException(h, x) then Abrupt(x)
                      else if RollsBack(h, p, ClassOf(x)) then Abrupt(RollbackFailed)
                      else Abrupt(CommitFailed))
  {
  }

  /**
   * Under the default policy, with no connection failures, a checked
   * Exception commits and a RuntimeException rolls back; either way the
   * throwable propagates and the owner's unit of work ends.
   */
  lemma DefaultPolicyPaths(h: Hierarchy, t: Throwable, f: Faults)
    requires WellFormed(h)
    requires IsSubclassOf(h, t.cls, EXCEPTION)
    requires f == Faults(false, false, false)
    ensures var e := OpenBoundary(h, DEFAULT, Abrupt(Raised(t)), true, f);
      && e.result == Abrupt(Raised(t))
      && e.ended
      && (IsSubclassOf(h, t.cls, RUNTIME_EXCEPTION) ==>
           e.ops == [ConnOp.Rollback(true), ConnOp.SetAutoCommit(true), ConnOp.Close(true)])
      && (!IsSubclassOf(h, t.cls, RUNTIME_EXCEPTION) ==>
           e.ops == [ConnOp.Commit(true), ConnOp.SetAutoCommit(true), ConnOp.Close(true)])
  {
    DefaultPolicyDecision(h, t.cls);
  }

  class JdbcLocalTxnInterceptor {
    /** The persistence service, which is also the UnitOfWork the interceptor begins and ends. */
    const service: JooqPersistService
    /** The annotations reflection would find. */
    const meta: Metadata
    const hierarchy: Hierarchy
    /** Set when this interceptor began the unit of work of the current context. */
    var didWeStartWork: bool
    /** methodsTransactionals: policies memoised by method. */
    var cache: map<MethodId, Transactional>

    ghost predicate Valid()
      reads this, service
    {
      WellFormed(hierarchy) && service.Valid() && CacheSound(meta, cache)
    }

    constructor (service: JooqPersistService, meta: Metadata, hierarchy: Hierarchy)
      requires WellFormed(hierarchy) && service.Valid()
      ensures Valid()
      ensures this.service == service && this.meta == meta && this.hierarchy == hierarchy
      ensures !didWeStartWork && cache == map[]
    {
      this.service := service;
      this.meta := meta;
      this.hierarchy := hierarchy;
      didWeStartWork := false;
      cache := map[];
    }

    /** The policy for `call`: memoised, else from the method, else from the target class, else the default. */
    method ReadTransactionMetadata(call: Call) returns (transactional: Transactional)
      requires Valid()
      modifies this`cache
      ensures Valid()
      ensures transactional == Resolve(meta, old(cache), call.advised, call.target).policy
      ensures cache == Resolve(meta, old(cache), call.advised, call.target).cache
    {
      ResolveKeepsCacheSound(meta, cache, call.advised, call.target);
      var m := call.advised;
      if m in cache {
        return cache[m];
      }
      var found: Option<Transactional> := if m in meta.onMethod then Some(meta.onMethod[m]) else None;
      if found.None? {
        found := if call.target in meta.onType then Some(meta.onType[call.target]) else None;
      }
      if found.Some? {
        cache := cache[m := found.value];
        transactional := found.value;
      } else {
        transactional := DEFAULT;
      }
    }

    /**
     * Rolls back when the policy says so and reports whether the caller
     * should go on to commit: true exactly when no rollback was issued.
     */
    method RollbackIfNecessary(transactional: Transactional, e: Thrown, conn: Connection, rollbackFails: bool)
      returns (r: Outcome<bool>)
      modifies conn
      ensures conn.autoCommit == old(conn.autoCommit)
      ensures var rollback := RollsBack(hierarchy, transactional, ClassOf(e));
        && conn.history == old(conn.history) + (if rollback then [ConnOp.Rollback(!rollbackFails)] else [])
        && r == (if !rollback then Normal(true) else if rollbackFails then Abrupt(RollbackFailed) else Normal(false))
    {
      var c := ClassOf(e);
      var commit := true;
      var i := 0;
      while i < |transactional.rollbackOn|
        invariant 0 <= i <= |transactional.rollbackOn|
        invariant commit
        invariant forall j :: 0 <= j < i ==> !IsSubclassOf(hierarchy, c, transactional.rollbackOn[j])
        invariant conn.history == old(conn.history) && conn.autoCommit == old(conn.autoCommit)
      {
        if IsSubclassOf(hierarchy, c, transactional.rollbackOn[i]) {
          commit := false;
          var k := 0;
          while k < |transactional.ignore|
            invariant 0 <= k <= |transactional.ignore|
            invariant !commit
            invariant forall j :: 0 <= j < k ==> !IsSubclassOf(hierarchy, c, transactional.ignore[j])
          {
            if IsSubclassOf(hierarchy, c, transactional.ignore[k]) {
              commit := true;
              break;
            }
            k := k + 1;
          }
          if !commit {
            var rolledBack := conn.Rollback(rollbackFails);
            if rolledBack.Abrupt? {
              return Abrupt(rolledBack.thrown);
            }
          }
          break;
        }
        i := i + 1;
      }
      r := Normal(commit);
    }

    /** methodInvocation.proceed(), run while a transaction is open on the bound connection. */
    method Proceed(call: Call, faults: Faults) returns (r: Outcome<Value>)
      requires Valid() && service.IsWorking() && !service.conn.autoCommit
      modifies this, service, service.conn
      ensures Valid()
      ensures r == Yield(call.body)
      ensures cache == (if call.body.Calls? then CacheAfter(meta, old(cache), call.body.inner) else old(cache))
      ensures didWeStartWork == old(didWeStartWork)
      ensures service.factory == old(service.factory) && service.conn == old(service.conn)
      ensures service.conn.history == old(service.conn.history)
      ensures service.conn.autoCommit == old(service.conn.autoCommit)
      decreases call, 0
    {
      match call.body
      case Returns(v) =>
        r := Normal(v);
      case Throws(t) =>
        r := Abrupt(Raised(t));
      case Calls(inner) =>
        // The nested call finds work active, so it never asks the data source for a connection.
        r := Invoke(inner, null, faults);
    }

    /**
     * The body of `catch (Exception e)` up to the rethrow: commit unless the
     * policy rolled back, then re-enable auto-commit. Completes abruptly when
     * the rollback or the commit throws, leaving auto-commit off.
     */
    method CatchException(transactional: Transactional, x: Thrown, conn: Connection, faults: Faults)
      returns (handled: Outcome<()>)
      modifies conn
      ensures var rollback := RollsBack(hierarchy, transactional, ClassOf(x));
        var fails := if rollback then faults.rollbackFails else faults.commitFails;
        var op := if rollback then ConnOp.Rollback(!fails) else ConnOp.Commit(!fails);
        && conn.history == old(conn.history) + [op] + (if fails then [] else [ConnOp.SetAutoCommit(true)])
        && conn.autoCommit == (if fails then old(conn.autoCommit) else true)
        && handled == (if !fails then Normal(()) else if rollback then Abrupt(RollbackFailed) else Abrupt(CommitFailed))
    {
      var goOn := RollbackIfNecessary(transactional, x, conn, faults.rollbackFails);
      if goOn.Abrupt? {
        handled := Abrupt(goOn.thrown);
      } else if goOn.value {
        handled := conn.Commit(faults.commitFails);
      } else {
        handled := Normal(());
      }
      if handled.Normal? {
        conn.SetAutoCommit(true);
      }
    }

    /** The body of both `finally` blocks once their guard holds: clear the flag, then end the unit of work. */
    method EndOwnedWork(closeFails: bool) returns (r: Outcome<()>)
      requires Valid() && service.IsWorking()
      modifies this`didWeStartWork, service, service.conn
      ensures Valid()
      ensures !didWeStartWork
      ensures old(service.conn).history == old(service.conn.history) + [ConnOp.Close(!closeFails)]
      ensures old(service.conn).autoCommit == old(service.conn.autoCommit)
      ensures closeFails ==> r == Abrupt(CloseFailed) && service.factory == old(service.factory) && service.conn == old(service.conn)
      ensures !closeFails ==> r == Normal(()) && service.factory == None && service.conn == null
    {
      didWeStartWork := false;
      r := service.End(closeFails);
    }

    /**
     * The second try/finally of invoke, after a normal return: commit and
     * re-enable auto-commit, then end owned work even if the commit threw.
     */
    method CommitNormally(v: Value, ghost transactional: Transactional, faults: Faults) returns (r: Outcome<Value>)
      requires Valid() && service.IsWorking() && !service.conn.autoCommit
      modifies this`didWeStartWork, service, service.conn
      ensures Valid()
      ensures var e := OpenBoundary(hierarchy, transactional, Normal(v), old(didWeStartWork), faults);
        && r == e.result
        && old(service.conn).history == old(service.conn.history) + e.ops
        && (old(service.conn).autoCommit <==> ConnOp.SetAutoCommit(true) in e.ops)
        && didWeStartWork == e.owner
        && (e.ended ==> service.factory == None && service.conn == null)
        && (!e.ended ==> service.factory == old(service.factory) && service.conn == old(service.conn))
    {
      var conn := service.GetConnectionWrapper();
      var committed := conn.Commit(faults.commitFails);
      if committed.Normal? {
        conn.SetAutoCommit(true);
      }
      r := if committed.Abrupt? then Abrupt(committed.thrown) else Normal(v);
      if didWeStartWork {
        var ended := EndOwnedWork(faults.closeFails);
        if ended.Abrupt? {
          r := Abrupt(ended.thrown);
        }
      }
    }

    /**
     * The catch and first finally of invoke, after the advised call threw
     * `x` with auto-commit off: an Exception is handled and rethrown, any
     * other throwable passes straight through the catch.
     */
    method HandleThrown(x: Thrown, transactional: Transactional, faults: Faults) returns (r: Outcome<Value>)
      requires Valid() && service.IsWorking() && !service.conn.autoCommit
      modifies this`didWeStartWork, service, service.conn
      ensures Valid()
      ensures var e := OpenBoundary(hierarchy, transactional, Abrupt(x), old(didWeStartWork), faults);
        && r == e.result
        && old(service.conn).history == old(service.conn.history) + e.ops
        && (old(service.conn).autoCommit <==> ConnOp.SetAutoCommit(true) in e.ops)
        && didWeStartWork == e.owner
        && (e.ended ==> service.factory == None && service.conn == null)
        && (!e.ended ==> service.factory == old(service.factory) && service.conn == old(service.conn))
    {
      var conn := service.GetConnectionWrapper();
      r := Abrupt(x);
      if IsException(hierarchy, x) {
        var handled := CatchException(transactional, x, conn, faults);
        if handled.Abrupt? {
          r := Abrupt(handled.thrown);
        }
      }
      // finally: guarded so that it only ends work when the catch ran to completion.
      if didWeStartWork && conn.autoCommit {
        var ended := EndOwnedWork(faults.closeFails);
        if ended.Abrupt? {
          r := Abrupt(ended.thrown);
        }
      }
    }

    /**
     * The part of invoke after the join test: turn auto-commit off, proceed,
     * handle the outcome and end owned work, as OpenBoundary describes.
     */
    method Transact(call: Call, transactional: Transactional, faults: Faults) returns (r: Outcome<Value>)
      requires Valid() && service.IsWorking() && service.conn.autoCommit
      modifies this, service, service.conn
      ensures Valid()
      ensures var e := OpenBoundary(hierarchy, transactional, Yield(call.body), old(didWeStartWork), faults);
        && r == e.result
        && old(service.conn).history == old(service.conn.history) + [ConnOp.SetAutoCommit(false)] + e.ops
        && (old(service.conn).autoCommit <==> ConnOp.SetAutoCommit(true) in e.ops)
        && didWeStartWork == e.owner
        && (e.ended ==> service.factory == None && service.conn == null)
        && (!e.ended ==> service.factory == old(service.factory) && service.conn == old(service.conn))
      ensures cache == (if call.body.Calls? then CacheAfter(meta, old(cache), call.body.inner) else old(cache))
      decreases call, 1
    {
      var conn := service.GetConnectionWrapper();
      conn.SetAutoCommit(false);
      var result := Proceed(call, faults);
      if result.Normal? {
        // The first finally's guard fails: auto-commit is off.
        r := CommitNormally(result.value, transactional, faults);
        return;
      }
      r := HandleThrown(result.thrown, transactional, faults);
    }

    /**
     * invoke. `source` is the connection the data source hands out if the
     * unit of work has to begin (null when getConnection throws). The
     * contract is split by the three ways the call can go: begin fails,
     * the call joins an open transaction, or it opens the boundary itself.
     */
    method Invoke(call: Call, source: Connection?, faults: Faults) returns (r: Outcome<Value>)
      requires Valid()
      modifies this, service, service.conn, source
      ensures Valid()
      // Work had to begin and no connection could be acquired: nothing else happens.
      ensures !old(service.IsWorking()) && source == null ==>
        && r == Abrupt(AcquireFailed)
        && didWeStartWork == old(didWeStartWork) && cache == old(cache)
        && service.factory == None && service.conn == null
      // Otherwise every nested policy is resolved and memoised.
      ensures old(service.IsWorking()) || source != null ==> cache == CacheAfter(meta, old(cache), call)
      // Join: auto-commit already off, so the advised call's outcome passes through untouched.
      ensures var c := if old(service.IsWorking()) then old(service.conn) else source;
        var owner := if old(service.IsWorking()) then old(didWeStartWork) else true;
        c != null && !old(c.autoCommit) ==>
          && r == Yield(call.body)
          && c.history == old(c.history) && !c.autoCommit
          && didWeStartWork == owner
          && service.conn == c
          && service.factory == (if old(service.IsWorking()) then old(service.factory)
                                 else Some(ChooseFactory(service.configuration, service.settings, service.dialect)))
      // Open: auto-commit on, so this call turns it off and runs the boundary protocol.
      ensures var c := if old(service.IsWorking()) then old(service.conn) else source;
        var owner := if old(service.IsWorking()) then old(didWeStartWork) else true;
        var e := OpenBoundary(hierarchy, Resolve(meta, old(cache), call.advised, call.target).policy,
                              Yield(call.body), owner, faults);
        c != null && old(c.autoCommit) ==>
          && r == e.result
          && c.history == old(c.history) + [ConnOp.SetAutoCommit(false)] + e.ops
          && (c.autoCommit <==> ConnOp.SetAutoCommit(true) in e.ops)
          && didWeStartWork == e.owner
          && (e.ended ==> service.factory == None && service.conn == null)
          && (!e.ended ==>
                && service.conn == c
                && service.factory == (if old(service.IsWorking()) then old(service.factory)
                                       else Some(ChooseFactory(service.configuration, service.settings, service.dialect))))
      // A connection that was not needed is left alone.
      ensures old(service.IsWorking()) && source != null && source != old(service.conn) ==> unchanged(source)
      decreases call, 2
    {
      // Begin work implicitly when none is active.
      if !service.IsWorking() {
        var begun := service.Begin(source);
        if begun.Abrupt? {
          return Abrupt(begun.thrown);
        }
        didWeStartWork := true;
      }
      var transactional := ReadTransactionMetadata(call);
      var conn := service.GetConnectionWrapper();

      // Join an enclosing transaction.
      if !conn.autoCommit {
        r := Proceed(call, faults);
        return;
      }
      r := Transact(call, transactional, faults);
    }
  }
}
