/**
 * Transaction policies (Guice Persist's `@Transactional` annotation) and the
 * two pure decisions the interceptor takes with them: which policy applies
 * to a call, and whether a caught exception leads to rollback or commit.
 */
module Policy {
  import opened Wrappers
  import opened Exceptions

  /** The attributes of `@Transactional` the interceptor reads, in declared order. */
  datatype Transactional = Transactional(rollbackOn: seq<ClassId>, ignore: seq<ClassId>)

  /** `@Transactional` with its defaults: roll back on RuntimeException, ignore nothing. */
  const DEFAULT: Transactional := Transactional([RUNTIME_EXCEPTION], [])

  /** The index of the first class in `classes` that `c` is an instance of. */
  function FirstMatch(h: Hierarchy, classes: seq<ClassId>, c: ClassId): (r: Option<nat>)
    ensures r.Some? ==> r.value < |classes| && IsSubclassOf(h, c, classes[r.value])
    ensures r.Some? ==> forall j :: 0 <= j < r.value ==> !IsSubclassOf(h, c, classes[j])
    ensures r.None? ==> forall j :: 0 <= j < |classes| ==> !IsSubclassOf(h, c, classes[j])
  {
    if classes == [] then None
    else if IsSubclassOf(h, c, classes[0]) then Some(0)
    else match FirstMatch(h, classes[1..], c)
      case None => None
      case Some(i) => Some(i + 1)
  }

  /** Some class in `classes` matches `c` under instance-of. */
  predicate Matches(h: Hierarchy, classes: seq<ClassId>, c: ClassId) {
    exists i :: 0 <= i < |classes| && IsSubclassOf(h, c, classes[i])
  }

  /**
   * The decision of rollbackIfNecessary, in the order the source takes it:
   * find the first rollbackOn class that matches; if there is one, look for
   * a matching ignore class, which overrides the rollback.
   */
  predicate RollsBack(h: Hierarchy, p: Transactional, c: ClassId) {
    FirstMatch(h, p.rollbackOn, c).Some? && FirstMatch(h, p.ignore, c).None?
  }

  /** Rollback happens exactly when some rollbackOn class matches and no ignore class does. */
  lemma RollsBackIffMatches(h: Hierarchy, p: Transactional, c: ClassId)
    ensures RollsBack(h, p, c) <==> Matches(h, p.rollbackOn, c) && !Matches(h, p.ignore, c)
  {
  }

  /** Whether a list matches depends only on which classes it holds. */
  lemma MatchesSameClasses(h: Hierarchy, a: seq<ClassId>, b: seq<ClassId>, c: ClassId)
    requires forall x :: x in a <==> x in b
    ensures Matches(h, a, c) <==> Matches(h, b, c)
  {
    if Matches(h, a, c) {
      var i :| 0 <= i < |a| && IsSubclassOf(h, c, a[i]);
      assert a[i] in b;
      var j :| 0 <= j < |b| && b[j] == a[i];
    }
    if Matches(h, b, c) {
      var j :| 0 <= j < |b| && IsSubclassOf(h, c, b[j]);
      assert b[j] in a;
      var i :| 0 <= i < |a| && a[i] == b[j];
    }
  }

  /** Reordering or repeating the classes of either list never changes the decision. */
  lemma RollbackIgnoresOrder(h: Hierarchy, p: Transactional, q: Transactional, c: ClassId)
    requires forall x :: x in p.rollbackOn <==> x in q.rollbackOn
    requires forall x :: x in p.ignore <==> x in q.ignore
    ensures RollsBack(h, p, c) <==> RollsBack(h, q, c)
  {
    RollsBackIffMatches(h, p, c);
    RollsBackIffMatches(h, q, c);
    MatchesSameClasses(h, p.rollbackOn, q.rollbackOn, c);
    MatchesSameClasses(h, p.ignore, q.ignore, c);
  }

  /** A matching ignore class always wins over a matching rollbackOn class. */
  lemma IgnoreSupersedesRollback(h: Hierarchy, p: Transactional, c: ClassId, k: nat)
    requires k < |p.ignore| && IsSubclassOf(h, c, p.ignore[k])
    ensures !RollsBack(h, p, c)
  {
  }

  /** A list that matches a class also matches all of its subclasses. */
  lemma MatchesSubclass(h: Hierarchy, classes: seq<ClassId>, c: ClassId, sub: ClassId)
    requires IsSubclassOf(h, sub, c)
    requires Matches(h, classes, c)
    ensures Matches(h, classes, sub)
  {
    var i :| 0 <= i < |classes| && IsSubclassOf(h, c, classes[i]);
    SubclassTransitive(h, sub, c, classes[i]);
  }

  /** Under the default policy, runtime exceptions roll back and every other exception commits. */
  lemma DefaultPolicyDecision(h: Hierarchy, c: ClassId)
    ensures RollsBack(h, DEFAULT, c) <==> IsSubclassOf(h, c, RUNTIME_EXCEPTION)
  {
  }

  /** Under the default policy, every failure the persistence layer raises itself rolls back. */
  lemma DefaultPolicyRollsBackLibraryFailures(h: Hierarchy, x: Thrown)
    requires WellFormed(h)
    requires !x.Raised?
    ensures RollsBack(h, DEFAULT, ClassOf(x))
  {
    LibraryFailuresAreRuntime(h, x);
    DefaultPolicyDecision(h, ClassOf(x));
  }

  /** A method id (`java.lang.reflect.Method`) and the runtime class of a call's target object. */
  type MethodId = nat
  type TypeId = nat

  /** The `@Transactional` annotations present on methods and on target classes. */
  datatype Metadata = Metadata(onMethod: map<MethodId, Transactional>, onType: map<TypeId, Transactional>)

  /** The policy for one call and the memo table afterwards. */
  datatype Resolution = Resolution(policy: Transactional, cache: map<MethodId, Transactional>)

  /** readTransactionMetadata: memo table, then method annotation, then target-class annotation, then the default. */
  function Resolve(meta: Metadata, cache: map<MethodId, Transactional>, m: MethodId, target: TypeId): Resolution {
    if m in cache then Resolution(cache[m], cache)
    else if m in meta.onMethod then Resolution(meta.onMethod[m], cache[m := meta.onMethod[m]])
    else if target in meta.onType then Resolution(meta.onType[target], cache[m := meta.onType[target]])
    else Resolution(DEFAULT, cache)
  }

  /** The policy reflection alone would give, with no memo table. */
  function Uncached(meta: Metadata, m: MethodId, target: TypeId): Transactional {
    if m in meta.onMethod then meta.onMethod[m]
    else if target in meta.onType then meta.onType[target]
    else DEFAULT
  }

  /** Every memoised policy is an annotation that is really present: the method's own if it has one, else a class's. */
  predicate CacheSound(meta: Metadata, cache: map<MethodId, Transactional>) {
    forall m :: m in cache ==>
      if m in meta.onMethod then cache[m] == meta.onMethod[m] else cache[m] in meta.onType.Values
  }

  /**
   * A miss gives the reflective answer and memoises it exactly when an
   * annotation was found; the default is never stored, and no other entry changes.
   */
  lemma ResolveMiss(meta: Metadata, cache: map<MethodId, Transactional>, m: MethodId, target: TypeId)
    requires m !in cache
    ensures var r := Resolve(meta, cache, m, target);
      && r.policy == Uncached(meta, m, target)
      && (m in meta.onMethod || target in meta.onType ==> r.cache == cache[m := r.policy])
      && (m !in meta.onMethod && target !in meta.onType ==> r.cache == cache && m !in r.cache)
  {
  }

  /** A hit returns the memoised policy and leaves the table as it is. */
  lemma ResolveHit(meta: Metadata, cache: map<MethodId, Transactional>, m: MethodId, target: TypeId)
    requires m in cache
    ensures Resolve(meta, cache, m, target) == Resolution(cache[m], cache)
  {
  }

  /** Resolution keeps the memo table sound. */
  lemma ResolveKeepsCacheSound(meta: Metadata, cache: map<MethodId, Transactional>, m: MethodId, target: TypeId)
    requires CacheSound(meta, cache)
    ensures CacheSound(meta, Resolve(meta, cache, m, target).cache)
  {
  }

  /** For a method that carries its own annotation, the memo table never changes the answer. */
  lemma CacheTransparentForAnnotatedMethods(meta: Metadata, cache: map<MethodId, Transactional>, m: MethodId, target: TypeId)
    requires CacheSound(meta, cache)
    requires m in meta.onMethod
    ensures Resolve(meta, cache, m, target).policy == Uncached(meta, m, target) == meta.onMethod[m]
  {
  }

  /** Resolving the same call again gives the same policy and leaves the table alone. */
  lemma ResolveIdempotent(meta: Metadata, cache: map<MethodId, Transactional>, m: MethodId, target: TypeId)
    ensures var r := Resolve(meta, cache, m, target);
      Resolve(meta, r.cache, m, target) == Resolution(r.policy, r.cache)
  {
  }

  /**
   * The memo table is keyed by method only: once a class-level policy is
   * memoised for a method, every later call of that method gets it, whatever
   * the class of its target; for a target class annotated differently that
   * is not the policy reflection would give.
   */
  lemma CacheKeyIgnoresTargetClass(meta: Metadata, cache: map<MethodId, Transactional>, m: MethodId, t1: TypeId, t2: TypeId)
    requires m !in cache && m !in meta.onMethod && t1 in meta.onType
    ensures var first := Resolve(meta, cache, m, t1);
      && first.policy == meta.onType[t1]
      && Resolve(meta, first.cache, m, t2).policy == meta.onType[t1]
      && (t2 in meta.onType && meta.onType[t2] != meta.onType[t1] ==>
            Resolve(meta, first.cache, m, t2).policy != Uncached(meta, m, t2))
  {
  }

  /** An instance: method 7 on classes 10 and 11, which roll back on different exceptions. */
  lemma CacheKeyIgnoresTargetClassInstance()
    ensures var p1 := Transactional([RUNTIME_EXCEPTION], []);
      var p2 := Transactional([EXCEPTION], []);
      var meta := Metadata(map[], map[10 := p1, 11 := p2]);
      var first := Resolve(meta, map[], 7, 10);
      && first.policy == p1
      && Resolve(meta, first.cache, 7, 11).policy == p1
      && Uncached(meta, 7, 11) == p2
  {
    CacheKeyIgnoresTargetClass(Metadata(map[], map[10 := Transactional([RUNTIME_EXCEPTION], []), 11 := Transactional([EXCEPTION], [])]), map[], 7, 10, 11);
  }
}
