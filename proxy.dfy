/**
 * The interception chain: a per-call ProxyChain with a cursor over an ordered list of
 * aspects, and the final hook protocol of AspectProxy.doProxy (begin, intercept,
 * before / rest of the chain / after, error and rethrow, end in a finally).
 *
 * The run is observed through a trace of hook invocations.  RunChain and RunAspect give
 * the trace, the outcome and the final cursor of a run as functions; the methods
 * ProxyChain.DoProxyChain and AspectProxy.DoProxy are proved to produce exactly that.
 */
module Proxy {
  import opened Base

  type ClassId = string

  /** An opaque argument or return value. */
  type Value = int

  /** A method of a target class, as reflection names it. */
  datatype MethodId = MethodId(declaringClass: ClassId, name: string)

  /** What a Java call can throw: the throwables of the model, Exceptions and Errors alike. */
  type Throwable = JavaException

  /** A call that either returns a value or throws. */
  datatype Outcome<T> = Returned(value: T) | Threw(thrown: Throwable)

  /** The method being intercepted, its arguments and the real target call (methodProxy.invokeSuper). */
  datatype Call = Call(targetMethod: MethodId, params: seq<Value>, invokeSuper: seq<Value> -> Outcome<Value>)

  /**
   * An aspect: the hooks a subclass of AspectProxy may override.  begin, error and end are
   * hooks that always complete normally; what they do is observed only through the trace.
   */
  datatype AspectProxy = AspectProxy(
    intercept: (MethodId, seq<Value>) -> Outcome<bool>,
    before: (MethodId, seq<Value>) -> Outcome<()>,
    after: (MethodId, seq<Value>) -> Outcome<()>)
  {
    /**
     * Proxy.doProxy as AspectProxy implements it (a final method).  `chain.proxyIndex` has
     * already been advanced past this aspect, so this aspect sits at position proxyIndex - 1.
     */
    method DoProxy(chain: ProxyChain) returns (r: Outcome<Value>)
      requires 0 < chain.proxyIndex <= |chain.proxyList|
      modifies chain
      decreases |chain.proxyList| - chain.proxyIndex, 2
      ensures chain.trace == old(chain.trace) + RunAspect(this, chain.proxyList, old(chain.proxyIndex), chain.Invocation()).trace
      ensures r == RunAspect(this, chain.proxyList, old(chain.proxyIndex), chain.Invocation()).outcome
      ensures chain.proxyIndex == RunAspect(this, chain.proxyList, old(chain.proxyIndex), chain.Invocation()).cursor
    {
      var i := chain.proxyIndex - 1;
      ghost var tb := TryBlock(this, chain.proxyList, chain.proxyIndex, chain.Invocation());
      chain.trace := chain.trace + [Begin(i)];
      ghost var afterBegin := chain.trace;
      r := TryPart(chain);
      if r.Threw? && r.thrown.IsException() {
        chain.trace := chain.trace + [Error(i, r.thrown)];
      }
      assert chain.trace == afterBegin + tb.trace + Caught(i, tb.outcome);
      chain.trace := chain.trace + [End(i)];
      AppendAssoc(old(chain.trace), [Begin(i)], tb.trace, Caught(i, tb.outcome), [End(i)]);
    }

    /** The try block of doProxy, for this aspect at position proxyIndex - 1. */
    method TryPart(chain: ProxyChain) returns (r: Outcome<Value>)
      requires 0 < chain.proxyIndex <= |chain.proxyList|
      modifies chain
      decreases |chain.proxyList| - chain.proxyIndex, 1
      ensures chain.trace == old(chain.trace) + TryBlock(this, chain.proxyList, old(chain.proxyIndex), chain.Invocation()).trace
      ensures r == TryBlock(this, chain.proxyList, old(chain.proxyIndex), chain.Invocation()).outcome
      ensures chain.proxyIndex == TryBlock(this, chain.proxyList, old(chain.proxyIndex), chain.Invocation()).cursor
    {
      var i := chain.proxyIndex - 1;
      var m, params := chain.targetMethod, chain.methodParams;
      var decision := intercept(m, params);
      if decision.Threw? {
        r := Threw(decision.thrown);
      } else if decision.value {
        chain.trace := chain.trace + [Before(i)];
        var b := before(m, params);
        if b.Threw? {
          r := Threw(b.thrown);
        } else {
          r := chain.DoProxyChain();
          if r.Returned? {
            chain.trace := chain.trace + [After(i)];
            var a := after(m, params);
            if a.Threw? {
              r := Threw(a.thrown);
            }
          }
        }
      } else {
        r := chain.DoProxyChain();
      }
    }
  }

  /** Regrouping of concatenations, stated once so that the solver need not rediscover it. */
  lemma AppendAssoc<T>(s: seq<T>, a: seq<T>, b: seq<T>, c: seq<T>, d: seq<T>)
    ensures s + a + b + c + d == s + (a + b + c + d)
  {
  }

  /** The no-op hooks of AspectProxy: intercept is constantly true, the others do nothing. */
  function DefaultAspect(): (a: AspectProxy)
    ensures forall m, p :: a.intercept(m, p) == Returned(true)
    ensures forall m, p :: a.before(m, p).Returned? && a.after(m, p).Returned?
  {
    AspectProxy((m, p) => Returned(true), (m, p) => Returned(()), (m, p) => Returned(()))
  }

  /** A hook invocation, tagged with the position in the proxy list of the aspect that ran it. */
  datatype Event =
    | Begin(aspect: nat)
    | Before(aspect: nat)
    | After(aspect: nat)
    | Error(aspect: nat, thrown: Throwable)
    | End(aspect: nat)
    | Target

  /** The events, the outcome and the final cursor of a run of (part of) the chain. */
  datatype Run = Run(trace: seq<Event>, outcome: Outcome<Value>, cursor: nat)

  /**
   * ProxyChain.doProxyChain with the cursor at k: the aspect at k runs (with the cursor
   * advanced to k + 1), or, once the cursor reached the end, the target runs.
   */
  function RunChain(proxies: seq<AspectProxy>, k: nat, c: Call): (r: Run)
    requires k <= |proxies|
    decreases |proxies| - k, 0
    ensures k <= r.cursor <= |proxies|
    ensures k < |proxies| ==> k < r.cursor
  {
    if k < |proxies| then RunAspect(proxies[k], proxies, k + 1, c)
    else Run([Target], c.invokeSuper(c.params), k)
  }

  /**
   * AspectProxy.doProxy of aspect `a`, which sits at position j - 1, with the cursor at j:
   * begin, the try block, error when the try block threw an Exception, and end in the
   * finally.  The outcome is the try block's, unchanged.
   */
  function RunAspect(a: AspectProxy, proxies: seq<AspectProxy>, j: nat, c: Call): (r: Run)
    requires 0 < j <= |proxies|
    decreases |proxies| - j, 2
    ensures j <= r.cursor <= |proxies|
    ensures |r.trace| >= 2 && r.trace[0] == Begin(j - 1) && r.trace[|r.trace| - 1] == End(j - 1)
  {
    var body := TryBlock(a, proxies, j, c);
    Run([Begin(j - 1)] + body.trace + Caught(j - 1, body.outcome) + [End(j - 1)], body.outcome, body.cursor)
  }

  /** The error hook's event when the try block threw an Exception; nothing otherwise. */
  function Caught(i: nat, o: Outcome<Value>): (evs: seq<Event>)
    ensures |evs| <= 1
  {
    if o.Threw? && o.thrown.IsException() then [Error(i, o.thrown)] else []
  }

  /**
   * The try block of doProxy: intercept; when it holds, before, the rest of the chain and,
   * only if that returned normally, after; otherwise the rest of the chain alone.
   */
  function TryBlock(a: AspectProxy, proxies: seq<AspectProxy>, j: nat, c: Call): (r: Run)
    requires 0 < j <= |proxies|
    decreases |proxies| - j, 1
    ensures j <= r.cursor <= |proxies|
  {
    match a.intercept(c.targetMethod, c.params)
    case Threw(t) => Run([], Threw(t), j)
    case Returned(false) => RunChain(proxies, j, c)
    case Returned(true) =>
      if a.before(c.targetMethod, c.params).Threw? then
        Run([Before(j - 1)], Threw(a.before(c.targetMethod, c.params).thrown), j)
      else AfterStep(a, j - 1, c, RunChain(proxies, j, c))
  }

  /**
   * The rest of the try block once before returned normally and the rest of the chain ran
   * as `inner`: after runs only if `inner` returned normally, and its exception replaces
   * the result.
   */
  function AfterStep(a: AspectProxy, i: nat, c: Call, inner: Run): (r: Run)
    ensures r.cursor == inner.cursor
  {
    if inner.outcome.Threw? then Run([Before(i)] + inner.trace, inner.outcome, inner.cursor)
    else if a.after(c.targetMethod, c.params).Threw? then
      Run([Before(i)] + inner.trace + [After(i)], Threw(a.after(c.targetMethod, c.params).thrown), inner.cursor)
    else Run([Before(i)] + inner.trace + [After(i)], inner.outcome, inner.cursor)
  }

  /**
   * The per-invocation chain.  The list of aspects and the call are fixed at construction;
   * the cursor proxyIndex advances as aspects run; `trace` records the hook invocations.
   */
  class ProxyChain {
    const targetClass: ClassId
    const targetObject: Value
    const targetMethod: MethodId
    const methodProxy: seq<Value> -> Outcome<Value>
    const methodParams: seq<Value>
    const proxyList: seq<AspectProxy>
    var proxyIndex: nat
    var trace: seq<Event>

    constructor (targetClass: ClassId, targetObject: Value, targetMethod: MethodId,
                 methodProxy: seq<Value> -> Outcome<Value>, methodParams: seq<Value>,
                 proxyList: seq<AspectProxy>)
      ensures this.targetClass == targetClass && this.targetObject == targetObject
      ensures this.targetMethod == targetMethod && this.methodParams == methodParams
      ensures this.methodProxy == methodProxy && this.proxyList == proxyList
      ensures proxyIndex == 0 && trace == []
    {
      this.targetClass := targetClass;
      this.targetObject := targetObject;
      this.targetMethod := targetMethod;
      this.methodProxy := methodProxy;
      this.methodParams := methodParams;
      this.proxyList := proxyList;
      proxyIndex := 0;
      trace := [];
    }

    /** The call this chain carries, as the specification functions take it. */
    function Invocation(): Call {
      Call(targetMethod, methodParams, methodProxy)
    }

    /** Runs the aspect at the cursor (advancing the cursor by one) or, at the end, the target. */
    method DoProxyChain() returns (r: Outcome<Value>)
      requires proxyIndex <= |proxyList|
      modifies this
      decreases |proxyList| - proxyIndex, 0
      ensures var run := RunChain(proxyList, old(proxyIndex), Invocation());
        && trace == old(trace) + run.trace
        && r == run.outcome
        && proxyIndex == run.cursor
    {
      if proxyIndex < |proxyList| {
        var p := proxyList[proxyIndex];
        proxyIndex := proxyIndex + 1;
        r := p.DoProxy(this);
      } else {
        trace := trace + [Target];
        r := methodProxy(methodParams);
      }
    }
  }

  /** A fresh chain for one invocation, run from its first aspect. */
  method InvokeThroughChain(targetClass: ClassId, targetObject: Value, c: Call, proxies: seq<AspectProxy>)
    returns (r: Outcome<Value>, trace: seq<Event>, cursor: nat)
    ensures var run := RunChain(proxies, 0, c);
      r == run.outcome && trace == run.trace && cursor == run.cursor
  {
    var chain := new ProxyChain(targetClass, targetObject, c.targetMethod, c.invokeSuper, c.params, proxies);
    r := chain.DoProxyChain();
    trace, cursor := chain.trace, chain.proxyIndex;
  }
}
