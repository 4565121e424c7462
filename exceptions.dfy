/**
 * Java's throwable class table, reduced to what the transaction logic needs:
 * a single-inheritance parent map and the `instanceof` relation over it,
 * the throwables the advised method raises, the failures the persistence
 * layer itself raises, and normal versus abrupt completion of a call.
 */
module Exceptions {

  /** A throwable class, identified by a number. */
  type ClassId = nat

  const THROWABLE: ClassId := 0
  const EXCEPTION: ClassId := 1
  const ERROR: ClassId := 2
  const RUNTIME_EXCEPTION: ClassId := 3
  const ILLEGAL_STATE_EXCEPTION: ClassId := 4
  /** jOOQ's DataAccessException, thrown by the connection provider's commit and rollback. */
  const DATA_ACCESS_EXCEPTION: ClassId := 5

  /**
   * `parent[c]` is the direct superclass of `c`. A superclass always has a
   * smaller id than its subclasses, so the table has no cycles.
   */
  datatype Hierarchy = Hierarchy(parent: map<ClassId, ClassId>)

  /** The class table of the Java runtime and jOOQ that the core relies on. */
  const STANDARD: Hierarchy := Hierarchy(map[
    EXCEPTION := THROWABLE,
    ERROR := THROWABLE,
    RUNTIME_EXCEPTION := EXCEPTION,
    ILLEGAL_STATE_EXCEPTION := RUNTIME_EXCEPTION,
    DATA_ACCESS_EXCEPTION := RUNTIME_EXCEPTION])

  /** Every superclass id is below its subclass id, and the standard classes sit where Java puts them. */
  predicate WellFormed(h: Hierarchy) {
    && (forall c :: c in h.parent ==> h.parent[c] < c)
    && (forall c :: c in STANDARD.parent ==> c in h.parent && h.parent[c] == STANDARD.parent[c])
  }

  /** `sub` is `sup` or inherits from it: `sup.isInstance(x)` for an `x` of runtime class `sub`. */
  predicate IsSubclassOf(h: Hierarchy, sub: ClassId, sup: ClassId)
    decreases sub
  {
    sub == sup || (sub in h.parent && h.parent[sub] < sub && IsSubclassOf(h, h.parent[sub], sup))
  }

  lemma StandardWellFormed()
    ensures WellFormed(STANDARD)
  {
  }

  /** Inheritance is transitive. */
  lemma {:induction false} SubclassTransitive(h: Hierarchy, a: ClassId, b: ClassId, c: ClassId)
    requires IsSubclassOf(h, a, b) && IsSubclassOf(h, b, c)
    ensures IsSubclassOf(h, a, c)
    decreases a
  {
    if a != b {
      SubclassTransitive(h, h.parent[a], b, c);
    }
  }

  /** With single inheritance, any two superclasses of one class are related to each other. */
  lemma {:induction false} SuperclassesAreChained(h: Hierarchy, c: ClassId, a: ClassId, b: ClassId)
    requires IsSubclassOf(h, c, a) && IsSubclassOf(h, c, b)
    ensures IsSubclassOf(h, a, b) || IsSubclassOf(h, b, a)
    decreases c
  {
    if c != a && c != b {
      SuperclassesAreChained(h, h.parent[c], a, b);
    }
  }

  /** An Error is never an Exception, so `catch (Exception e)` lets it pass. */
  lemma ErrorIsNotException(h: Hierarchy, c: ClassId)
    requires WellFormed(h)
    requires IsSubclassOf(h, c, ERROR)
    ensures !IsSubclassOf(h, c, EXCEPTION)
  {
    if IsSubclassOf(h, c, EXCEPTION) {
      SuperclassesAreChained(h, c, ERROR, EXCEPTION);
    }
  }

  /** A throwable object raised by application code: its identity and runtime class. */
  datatype Throwable = Throwable(id: nat, cls: ClassId)

  /** What can propagate out of the core's operations. */
  datatype Thrown =
    | Raised(t: Throwable)   // thrown by the advised method and propagated as is
    | IllegalState           // Preconditions.checkState failed
    | AcquireFailed          // RuntimeException wrapping the SQLException from getConnection
    | CloseFailed            // RuntimeException wrapping the SQLException from close
    | CommitFailed           // DataAccessException from the connection provider's commit
    | RollbackFailed         // DataAccessException from the connection provider's rollback

  /** The runtime class of a thrown value. */
  function ClassOf(x: Thrown): ClassId {
    match x
    case Raised(t) => t.cls
    case IllegalState => ILLEGAL_STATE_EXCEPTION
    case AcquireFailed => RUNTIME_EXCEPTION
    case CloseFailed => RUNTIME_EXCEPTION
    case CommitFailed => DATA_ACCESS_EXCEPTION
    case RollbackFailed => DATA_ACCESS_EXCEPTION
  }

  /** Java's `catch (Exception e)` test. */
  predicate IsException(h: Hierarchy, x: Thrown) {
    IsSubclassOf(h, ClassOf(x), EXCEPTION)
  }

  /**
   * The failures the persistence layer raises itself are RuntimeExceptions,
   * and so Exceptions: an enclosing `catch (Exception e)` catches them.
   */
  lemma LibraryFailuresAreRuntime(h: Hierarchy, x: Thrown)
    requires WellFormed(h)
    requires !x.Raised?
    ensures IsSubclassOf(h, ClassOf(x), RUNTIME_EXCEPTION)
    ensures IsException(h, x)
  {
    assert IsSubclassOf(h, RUNTIME_EXCEPTION, EXCEPTION);
    assert IsSubclassOf(h, ClassOf(x), RUNTIME_EXCEPTION);
    SubclassTransitive(h, ClassOf(x), RUNTIME_EXCEPTION, EXCEPTION);
  }

  /** How a Java call completes: with a value, or by throwing. */
  datatype Outcome<+T> = Normal(value: T) | Abrupt(thrown: Thrown)
}
