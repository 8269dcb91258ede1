/**
 * Properties of the interception chain: the target runs at most once and exactly when
 * every aspect passes the call on; a normal result is the target's own; the aspects nest
 * (entry hooks outermost first, exit hooks innermost first); and the per-aspect hook
 * protocol of AspectProxy.doProxy.
 */
module ProxyProperties {
  import opened Proxy

  /** The aspect's intercept returns true for this call. */
  predicate Intercepts(a: AspectProxy, c: Call) {
    a.intercept(c.targetMethod, c.params) == Returned(true)
  }

  /** The aspect calls the rest of the chain: neither intercept nor (when it holds) before throws. */
  predicate PassesOn(a: AspectProxy, c: Call) {
    a.intercept(c.targetMethod, c.params).Returned? &&
    (Intercepts(a, c) ==> a.before(c.targetMethod, c.params).Returned?)
  }

  /** Every aspect from position k on passes the call on. */
  predicate AllPassOn(proxies: seq<AspectProxy>, k: nat, c: Call) {
    forall i | k <= i < |proxies| :: PassesOn(proxies[i], c)
  }

  /** The event is the target call or a hook of an aspect at a position in [lo, hi). */
  predicate TaggedIn(e: Event, lo: nat, hi: nat) {
    e.Target? || lo <= e.aspect < hi
  }

  /**
   * What is known of a run that started with the cursor at position lo + 1 or lo: the
   * target shows up in the trace once when `passes` and not at all otherwise; every event
   * belongs to an aspect at a position in [lo, hi); a normal result is exactly what the
   * target returned.
   */
  predicate Described(r: Run, lo: nat, hi: nat, passes: bool, c: Call) {
    && multiset(r.trace)[Target] == (if passes then 1 else 0)
    && (forall e | e in r.trace :: TaggedIn(e, lo, hi))
    && (r.outcome.Returned? ==> Target in r.trace && r.outcome == c.invokeSuper(c.params))
  }

  /** From cursor k, the target runs when every remaining aspect passes the call on. */
  lemma {:induction false} ChainFacts(proxies: seq<AspectProxy>, k: nat, c: Call)
    requires k <= |proxies|
    decreases |proxies| - k, 1
    ensures Described(RunChain(proxies, k, c), k, |proxies|, AllPassOn(proxies, k, c), c)
  {
    if k < |proxies| {
      ChainStepFacts(proxies, k, c);
    } else {
      assert RunChain(proxies, k, c) == Run([Target], c.invokeSuper(c.params), k);
    }
  }

  /** ChainFacts with the cursor on an aspect: the chain's run is that aspect's doProxy. */
  lemma {:induction false} ChainStepFacts(proxies: seq<AspectProxy>, k: nat, c: Call)
    requires k < |proxies|
    decreases |proxies| - k, 0
    ensures Described(RunChain(proxies, k, c), k, |proxies|, AllPassOn(proxies, k, c), c)
  {
    AspectFacts(proxies[k], proxies, k + 1, c);
    assert RunChain(proxies, k, c) == RunAspect(proxies[k], proxies, k + 1, c);
    assert AllPassOn(proxies, k, c) == (PassesOn(proxies[k], c) && AllPassOn(proxies, k + 1, c));
  }

  /** The same facts for one aspect's doProxy, sitting at position j - 1. */
  lemma {:induction false} AspectFacts(a: AspectProxy, proxies: seq<AspectProxy>, j: nat, c: Call)
    requires 0 < j <= |proxies|
    decreases |proxies| - j, 3
    ensures Described(RunAspect(a, proxies, j, c), j - 1, |proxies|, PassesOn(a, c) && AllPassOn(proxies, j, c), c)
  {
    TryBlockFacts(a, proxies, j, c);
    var body := TryBlock(a, proxies, j, c);
    var extra := [Begin(j - 1)] + Caught(j - 1, body.outcome) + [End(j - 1)];
    assert multiset(extra)[Target] == 0;
    assert forall e | e in extra :: TaggedIn(e, j - 1, |proxies|);
    var r := RunAspect(a, proxies, j, c);
    assert r.trace == [Begin(j - 1)] + body.trace + Caught(j - 1, body.outcome) + [End(j - 1)];
    assert r.outcome == body.outcome;
    assert multiset(r.trace) == multiset(body.trace) + multiset(extra);
    assert forall e | e in r.trace :: e in body.trace || e in extra;
  }

  /** The same facts for the try block of doProxy. */
  lemma {:induction false} TryBlockFacts(a: AspectProxy, proxies: seq<AspectProxy>, j: nat, c: Call)
    requires 0 < j <= |proxies|
    decreases |proxies| - j, 2
    ensures Described(TryBlock(a, proxies, j, c), j - 1, |proxies|, PassesOn(a, c) && AllPassOn(proxies, j, c), c)
  {
    ChainFacts(proxies, j, c);
    var i := j - 1;
    var inner := RunChain(proxies, j, c);
    var r := TryBlock(a, proxies, j, c);
    match a.intercept(c.targetMethod, c.params)
    case Threw(t) =>
      assert r.trace == [];
    case Returned(false) =>
      assert r == inner;
    case Returned(true) =>
      if a.before(c.targetMethod, c.params).Threw? {
        assert r.trace == [Before(i)];
      } else if inner.outcome.Threw? {
        assert r.trace == [Before(i)] + inner.trace;
      } else {
        assert r.trace == [Before(i)] + inner.trace + [After(i)];
      }
  }

  /** A run of the whole chain: the target is invoked at most once, and exactly once when every aspect passes the call on. */
  lemma TargetRunsAtMostOnce(proxies: seq<AspectProxy>, c: Call)
    ensures multiset(RunChain(proxies, 0, c).trace)[Target] <= 1
    ensures Target in RunChain(proxies, 0, c).trace <==> AllPassOn(proxies, 0, c)
  {
    ChainFacts(proxies, 0, c);
  }

  /** The hooks never alter a result: a normal return of the chain is the target's own return value. */
  lemma ResultIsTargetResult(proxies: seq<AspectProxy>, c: Call, v: Value)
    requires RunChain(proxies, 0, c).outcome == Returned(v)
    ensures c.invokeSuper(c.params) == Returned(v)
  {
    ChainFacts(proxies, 0, c);
  }

  /** The entry hooks from position k in, outermost first: begin, and before when intercept holds. */
  function Entry(proxies: seq<AspectProxy>, k: nat, c: Call): (evs: seq<Event>)
    requires k <= |proxies|
    decreases |proxies| - k
  {
    if k == |proxies| then []
    else [Begin(k)] + (if Intercepts(proxies[k], c) then [Before(k)] else []) + Entry(proxies, k + 1, c)
  }

  /**
   * The exit hooks from position k in, innermost first, and the outcome that reaches
   * position k - 1, when the target's outcome is `o`: after (only on a normal return and
   * when intercept held), error (on an Exception) and end.
   */
  function Unwind(proxies: seq<AspectProxy>, k: nat, c: Call, o: Outcome<Value>): (u: (seq<Event>, Outcome<Value>))
    requires k <= |proxies|
    decreases |proxies| - k
  {
    if k == |proxies| then ([], o)
    else
      var inner := Unwind(proxies, k + 1, c, o);
      var a := proxies[k];
      var afterRuns := Intercepts(a, c) && inner.1.Returned?;
      var o' := if afterRuns && a.after(c.targetMethod, c.params).Threw? then Threw(a.after(c.targetMethod, c.params).thrown) else inner.1;
      (inner.0 + (if afterRuns then [After(k)] else []) + Caught(k, o') + [End(k)], o')
  }

  /**
   * Nesting, when every aspect passes the call on: all entry hooks run first (outermost
   * aspect first), then the target exactly once, then the exit hooks (innermost first).
   */
  lemma {:induction false} Flatten(proxies: seq<AspectProxy>, k: nat, c: Call)
    requires k <= |proxies| && AllPassOn(proxies, k, c)
    decreases |proxies| - k
    ensures var u := Unwind(proxies, k, c, c.invokeSuper(c.params));
      RunChain(proxies, k, c) == Run(Entry(proxies, k, c) + [Target] + u.0, u.1, |proxies|)
  {
    if k < |proxies| {
      Flatten(proxies, k + 1, c);
      FlattenStep(proxies, k, c);
    } else {
      assert Entry(proxies, k, c) == [];
      assert Unwind(proxies, k, c, c.invokeSuper(c.params)) == ([], c.invokeSuper(c.params));
    }
  }

  /** Flatten at position k, from Flatten at k + 1: the aspect at k wraps the flattened rest. */
  lemma FlattenStep(proxies: seq<AspectProxy>, k: nat, c: Call)
    requires k < |proxies| && AllPassOn(proxies, k, c)
    requires var u := Unwind(proxies, k + 1, c, c.invokeSuper(c.params));
      RunChain(proxies, k + 1, c) == Run(Entry(proxies, k + 1, c) + [Target] + u.0, u.1, |proxies|)
    ensures var u := Unwind(proxies, k, c, c.invokeSuper(c.params));
      RunChain(proxies, k, c) == Run(Entry(proxies, k, c) + [Target] + u.0, u.1, |proxies|)
  {
    var a := proxies[k];
    var u := Unwind(proxies, k + 1, c, c.invokeSuper(c.params));
    var uk := Unwind(proxies, k, c, c.invokeSuper(c.params));
    var bef := if Intercepts(a, c) then [Before(k)] else [];
    var aft := if Intercepts(a, c) && u.1.Returned? then [After(k)] else [];
    FlattenBody(proxies, k, c);
    assert uk.0 == u.0 + aft + Caught(k, uk.1) + [End(k)];
    assert Entry(proxies, k, c) == [Begin(k)] + bef + Entry(proxies, k + 1, c);
    var lhs := RunChain(proxies, k, c);
    var body := TryBlock(a, proxies, k + 1, c);
    assert lhs == RunAspect(a, proxies, k + 1, c);
    assert lhs.trace == [Begin(k)] + body.trace + Caught(k, body.outcome) + [End(k)];
    assert lhs.trace == [Begin(k)] + (bef + (Entry(proxies, k + 1, c) + [Target] + u.0) + aft) + Caught(k, uk.1) + [End(k)];
    Regroup([Begin(k)], bef, Entry(proxies, k + 1, c), [Target], u.0, aft, Caught(k, uk.1), [End(k)]);
  }

  /** The try block of the aspect at k around the flattened rest: before, the rest, after when it returned. */
  lemma FlattenBody(proxies: seq<AspectProxy>, k: nat, c: Call)
    requires k < |proxies| && AllPassOn(proxies, k, c)
    requires var u := Unwind(proxies, k + 1, c, c.invokeSuper(c.params));
      RunChain(proxies, k + 1, c) == Run(Entry(proxies, k + 1, c) + [Target] + u.0, u.1, |proxies|)
    ensures var a, u := proxies[k], Unwind(proxies, k + 1, c, c.invokeSuper(c.params));
      var body := TryBlock(a, proxies, k + 1, c);
      && body.trace == (if Intercepts(a, c) then [Before(k)] else []) + (Entry(proxies, k + 1, c) + [Target] + u.0)
                       + (if Intercepts(a, c) && u.1.Returned? then [After(k)] else [])
      && body.outcome == Unwind(proxies, k, c, c.invokeSuper(c.params)).1
      && body.cursor == |proxies|
  {
    assert PassesOn(proxies[k], c);
  }

  /** Regrouping of the concatenations Flatten rearranges. */
  lemma Regroup<T>(x: seq<T>, b: seq<T>, e: seq<T>, t: seq<T>, u: seq<T>, a: seq<T>, l: seq<T>, d: seq<T>)
    ensures x + (b + (e + t + u) + a) + l + d == (x + b + e) + t + (u + a + l + d)
  {
  }

  /** The aspect always intercepts and its before and after hooks return normally on this call. */
  predicate Transparent(a: AspectProxy, c: Call) {
    Intercepts(a, c) && a.before(c.targetMethod, c.params).Returned? && a.after(c.targetMethod, c.params).Returned?
  }

  /** Two intercepting aspects A, B around a target that returns: A's hooks wrap B's entire run. */
  lemma TwoAspectsNest(a: AspectProxy, b: AspectProxy, c: Call)
    requires Transparent(a, c) && Transparent(b, c) && c.invokeSuper(c.params).Returned?
    ensures RunChain([a, b], 0, c).trace ==
      [Begin(0), Before(0), Begin(1), Before(1), Target, After(1), End(1), After(0), End(0)]
    ensures RunChain([a, b], 0, c).outcome == c.invokeSuper(c.params)
  {
    var o := c.invokeSuper(c.params);
    TwoEntries(a, b, c);
    assert Caught(0, o) == [] && Caught(1, o) == [];
    assert Unwind([a, b], 2, c, o) == ([], o);
    assert Unwind([a, b], 1, c, o).0 == [After(1), End(1)];
    assert Unwind([a, b], 1, c, o).1 == o;
    assert Unwind([a, b], 0, c, o).0 == [After(1), End(1), After(0), End(0)];
    assert Unwind([a, b], 0, c, o).1 == o;
    Flatten([a, b], 0, c);
  }

  /** The entry hooks of two intercepting aspects whose before hooks return normally. */
  lemma TwoEntries(a: AspectProxy, b: AspectProxy, c: Call)
    requires Transparent(a, c) && Transparent(b, c)
    ensures Entry([a, b], 0, c) == [Begin(0), Before(0), Begin(1), Before(1)]
  {
    assert [a, b][0] == a && [a, b][1] == b;
    assert Entry([a, b], 2, c) == [];
    assert Entry([a, b], 1, c) == [Begin(1), Before(1)];
  }

  /** The same two aspects when the target throws an Exception: error and end unwind inner to outer, and the exception is rethrown unchanged. */
  lemma TwoAspectsUnwindOnException(a: AspectProxy, b: AspectProxy, c: Call, e: Throwable)
    requires Transparent(a, c) && Transparent(b, c)
    requires c.invokeSuper(c.params) == Threw(e) && e.IsException()
    ensures RunChain([a, b], 0, c).trace ==
      [Begin(0), Before(0), Begin(1), Before(1), Target, Error(1, e), End(1), Error(0, e), End(0)]
    ensures RunChain([a, b], 0, c).outcome == Threw(e)
  {
    var o := c.invokeSuper(c.params);
    TwoEntries(a, b, c);
    assert Caught(0, o) == [Error(0, e)] && Caught(1, o) == [Error(1, e)];
    assert Unwind([a, b], 2, c, o) == ([], o);
    assert Unwind([a, b], 1, c, o).0 == [Error(1, e), End(1)];
    assert Unwind([a, b], 1, c, o).1 == o;
    assert Unwind([a, b], 0, c, o).0 == [Error(1, e), End(1), Error(0, e), End(0)];
    assert Unwind([a, b], 0, c, o).1 == o;
    Flatten([a, b], 0, c);
  }

  /** A Throwable that is not an Exception skips the error hooks but still runs every end hook. */
  lemma TwoAspectsUnwindOnError(a: AspectProxy, b: AspectProxy, c: Call, e: Throwable)
    requires Transparent(a, c) && Transparent(b, c)
    requires c.invokeSuper(c.params) == Threw(e) && !e.IsException()
    ensures RunChain([a, b], 0, c).trace ==
      [Begin(0), Before(0), Begin(1), Before(1), Target, End(1), End(0)]
    ensures RunChain([a, b], 0, c).outcome == Threw(e)
  {
    var o := c.invokeSuper(c.params);
    TwoEntries(a, b, c);
    assert Caught(0, o) == [] && Caught(1, o) == [];
    assert Unwind([a, b], 2, c, o) == ([], o);
    assert Unwind([a, b], 1, c, o).0 == [End(1)];
    assert Unwind([a, b], 1, c, o).1 == o;
    assert Unwind([a, b], 0, c, o).0 == [End(1), End(0)];
    assert Unwind([a, b], 0, c, o).1 == o;
    Flatten([a, b], 0, c);
  }

  /** With no aspects the first doProxyChain call invokes the target with the stored arguments. */
  lemma EmptyChainInvokesTarget(c: Call)
    ensures RunChain([], 0, c) == Run([Target], c.invokeSuper(c.params), 0)
  {
  }

  /**
   * When intercept returns false, the rest of the chain runs between begin and end, neither
   * before nor after of this aspect fires, and the result is the rest of the chain's.
   */
  lemma InterceptFalseSkipsBeforeAndAfter(a: AspectProxy, proxies: seq<AspectProxy>, j: nat, c: Call)
    requires 0 < j <= |proxies|
    requires a.intercept(c.targetMethod, c.params) == Returned(false)
    ensures var r := RunAspect(a, proxies, j, c);
      var inner := RunChain(proxies, j, c);
      && Before(j - 1) !in r.trace && After(j - 1) !in r.trace
      && r.trace == [Begin(j - 1)] + inner.trace + Caught(j - 1, inner.outcome) + [End(j - 1)]
      && r.outcome == inner.outcome
  {
    ChainFacts(proxies, j, c);
    assert !TaggedIn(Before(j - 1), j, |proxies|) && !TaggedIn(After(j - 1), j, |proxies|);
  }

  /**
   * after fires for this aspect exactly when intercept returned true, before returned
   * normally and the rest of the chain returned normally.
   */
  lemma AfterOnlyOnNormalReturn(a: AspectProxy, proxies: seq<AspectProxy>, j: nat, c: Call)
    requires 0 < j <= |proxies|
    ensures After(j - 1) in RunAspect(a, proxies, j, c).trace <==>
      && Intercepts(a, c)
      && a.before(c.targetMethod, c.params).Returned?
      && RunChain(proxies, j, c).outcome.Returned?
  {
    var i := j - 1;
    var inner := RunChain(proxies, j, c);
    var body := TryBlock(a, proxies, j, c);
    ChainFacts(proxies, j, c);
    assert !TaggedIn(After(i), j, |proxies|);
    assert After(i) !in inner.trace;
    assert RunAspect(a, proxies, j, c).trace == [Begin(i)] + body.trace + Caught(i, body.outcome) + [End(i)];
    assert After(i) in RunAspect(a, proxies, j, c).trace <==> After(i) in body.trace;
    match a.intercept(c.targetMethod, c.params)
    case Threw(t) =>
      assert body.trace == [];
    case Returned(false) =>
      assert body == inner;
    case Returned(true) =>
      if a.before(c.targetMethod, c.params).Threw? {
        assert body.trace == [Before(i)];
      } else if inner.outcome.Threw? {
        assert body.trace == [Before(i)] + inner.trace;
      } else {
        assert body.trace == [Before(i)] + inner.trace + [After(i)];
      }
  }

  /**
   * error(t) fires for this aspect exactly when doProxy ends by throwing t and t is an
   * Exception; whatever doProxy throws is what its try block threw, unchanged.
   */
  lemma ErrorOnlyOnException(a: AspectProxy, proxies: seq<AspectProxy>, j: nat, c: Call, t: Throwable)
    requires 0 < j <= |proxies|
    ensures Error(j - 1, t) in RunAspect(a, proxies, j, c).trace <==>
      RunAspect(a, proxies, j, c).outcome == Threw(t) && t.IsException()
    ensures RunAspect(a, proxies, j, c).outcome == TryBlock(a, proxies, j, c).outcome
  {
    ChainFacts(proxies, j, c);
    assert !TaggedIn(Error(j - 1, t), j, |proxies|);
    var body := TryBlock(a, proxies, j, c);
    assert Error(j - 1, t) !in body.trace;
  }

  /** The intercept predicate of the example EfficientAspect: only calls named getUserList. */
  function EfficientAspect(): (a: AspectProxy)
    ensures forall m, p :: a.intercept(m, p) == Returned(m.name == "getUserList")
  {
    AspectProxy((m: MethodId, p: seq<Value>) => Returned(m.name == "getUserList"),
                (m, p) => Returned(()), (m, p) => Returned(()))
  }

  /** EfficientAspect wraps getUserList with before/after and lets any other method straight through. */
  lemma EfficientAspectSelectsGetUserList(c: Call)
    requires c.invokeSuper(c.params).Returned?
    ensures c.targetMethod.name == "getUserList" ==>
      RunChain([EfficientAspect()], 0, c).trace == [Begin(0), Before(0), Target, After(0), End(0)]
    ensures c.targetMethod.name != "getUserList" ==>
      RunChain([EfficientAspect()], 0, c).trace == [Begin(0), Target, End(0)]
  {
    Flatten([EfficientAspect()], 0, c);
  }
}
