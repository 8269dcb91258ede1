/**
 * HelperLoader.init: the startup phases, run by loading five helper classes in a fixed
 * order with initialisation, so that each one's static initialiser runs: class scanning,
 * bean creation, aspect weaving, dependency injection, route registration.
 */
module HelperLoader {
  import opened Base
  import opened ClassUtil

  const CLASS_HELPER: ClassName := "cn.egret.helper.ClassHelper"
  const BEAN_HELPER: ClassName := "cn.egret.helper.BeanHelper"
  const AOP_HELPER: ClassName := "cn.egret.helper.AopHelper"
  const IOC_HELPER: ClassName := "cn.egret.helper.IocHelper"
  const CONTROLLER_HELPER: ClassName := "cn.egret.helper.ControllerHelper"

  /** The class list init walks, in order. */
  const HELPERS: seq<ClassName> := [CLASS_HELPER, BEAN_HELPER, AOP_HELPER, IOC_HELPER, CONTROLLER_HELPER]

  /**
   * Loading the classes `names` in order, with initialisation, from the initialised
   * classes `initialized`: the class loader's rules for each, stopping at the first
   * throwable, which propagates: an Error as much as an Exception, since init's caller
   * catches neither.  Gives the outcome and the initialised classes after.
   */
  function LoadAll(cp: Classpath, failingInit: set<ClassName>, initialized: seq<ClassName>, names: seq<ClassName>)
    : (r: (Result<(), JavaException>, seq<ClassName>))
    ensures |initialized| <= |r.1| <= |initialized| + |names| && r.1[..|initialized|] == initialized
    decreases |names|
  {
    if |names| == 0 then (Success(()), initialized)
    else
      var name := names[0];
      if name !in cp.available then (Failure(RuntimeException(ClassNotFound(name))), initialized)
      else if name in initialized then
        if name in failingInit then (Failure(NoClassDefFound(name)), initialized)
        else LoadAll(cp, failingInit, initialized, names[1..])
      else if name in failingInit then (Failure(InitializerError(name)), initialized + [name])
      else
        var rest := LoadAll(cp, failingInit, initialized + [name], names[1..]);
        assert rest.1[..|initialized|] == (rest.1[..|initialized| + 1])[..|initialized|];
        rest
  }

  /** The position of the first of `names` the class path cannot resolve, or |names| when it resolves them all. */
  function FirstMissing(cp: Classpath, names: seq<ClassName>): (k: nat)
    ensures k <= |names|
    ensures forall j | 0 <= j < k :: names[j] in cp.available
    ensures k < |names| ==> names[k] !in cp.available
    decreases |names|
  {
    if |names| == 0 then 0
    else if names[0] !in cp.available then 0
    else 1 + FirstMissing(cp, names[1..])
  }

  /**
   * init as a whole: the class-literal array resolves the five helpers first, in order, and
   * a helper that cannot be resolved throws NoClassDefFoundError before any of them is
   * loaded; otherwise the loop loads each with initialisation.
   */
  function Startup(cp: Classpath, failingInit: set<ClassName>, initialized: seq<ClassName>)
    : (r: (Result<(), JavaException>, seq<ClassName>))
    ensures (exists k | 0 <= k < |HELPERS| :: HELPERS[k] !in cp.available) ==>
      && r.1 == initialized
      && r.0.Failure? && r.0.error.NoClassDefFound? && r.0.error.className !in cp.available
    ensures (forall k | 0 <= k < |HELPERS| :: HELPERS[k] in cp.available) ==> r == LoadAll(cp, failingInit, initialized, HELPERS)
  {
    var k := FirstMissing(cp, HELPERS);
    if k < |HELPERS| then (Failure(NoClassDefFound(HELPERS[k])), initialized)
    else LoadAll(cp, failingInit, initialized, HELPERS)
  }

  /** init: resolve the five helper classes, then load each in turn; a throwable from one ends the startup. */
  method Init(loader: ClassLoader) returns (r: Result<(), JavaException>)
    modifies loader
    ensures (r, loader.initialized) == Startup(loader.classpath, loader.failingInit, old(loader.initialized))
  {
    // The class literals of the array initialiser at HelperLoader.java:16-22.
    var missing := FirstMissing(loader.classpath, HELPERS);
    if missing < |HELPERS| {
      return Failure(NoClassDefFound(HELPERS[missing]));
    }
    var i := 0;
    while i < |HELPERS|
      invariant 0 <= i <= |HELPERS|
      invariant LoadAll(loader.classpath, loader.failingInit, loader.initialized, HELPERS[i..])
             == LoadAll(loader.classpath, loader.failingInit, old(loader.initialized), HELPERS)
    {
      assert HELPERS[i..][0] == HELPERS[i];
      var loaded := LoadClassInitialized(loader, HELPERS[i]);
      assert HELPERS[i..][1..] == HELPERS[i + 1..];
      if loaded.Failure? {
        return Failure(loaded.error);
      }
      i := i + 1;
    }
    r := Success(());
  }

  /** Nothing initialised, every helper present, no initialiser throws: the five phases run, in list order. */
  lemma {:induction false} StartupRunsAllPhases(cp: Classpath, failingInit: set<ClassName>, initialized: seq<ClassName>, names: seq<ClassName>)
    requires forall k | 0 <= k < |names| :: names[k] in cp.available && names[k] !in failingInit && names[k] !in initialized
    requires forall j, k | 0 <= j < k < |names| :: names[j] != names[k]
    ensures LoadAll(cp, failingInit, initialized, names) == (Success(()), initialized + names)
    decreases |names|
  {
    if |names| > 0 {
      var name := names[0];
      forall k | 0 <= k < |names| - 1 ensures names[1..][k] !in initialized + [name] {
        assert names[1..][k] == names[k + 1] != names[0];
      }
      StartupRunsAllPhases(cp, failingInit, initialized + [name], names[1..]);
      assert initialized + [name] + names[1..] == initialized + names;
    } else {
      assert initialized + names == initialized;
    }
  }

  /** The five helpers are distinct classes. */
  lemma HelpersDistinct()
    ensures forall j, k | 0 <= j < k < |HELPERS| :: HELPERS[j] != HELPERS[k]
  {
  }

  /**
   * On a fresh class loader that can load every helper without an initialiser failing,
   * init succeeds and the static initialisers run in the order scan, beans, weave, inject,
   * routes: scanning first, and the proxies of AopHelper in place before IocHelper injects.
   */
  lemma FreshStartupOrder(cp: Classpath, failingInit: set<ClassName>)
    requires forall k | 0 <= k < |HELPERS| :: HELPERS[k] in cp.available && HELPERS[k] !in failingInit
    ensures Startup(cp, failingInit, []) == (Success(()), HELPERS)
    ensures HELPERS[0] == CLASS_HELPER
    ensures HELPERS[2] == AOP_HELPER && HELPERS[3] == IOC_HELPER
  {
    HelpersDistinct();
    StartupRunsAllPhases(cp, failingInit, [], HELPERS);
  }

  /**
   * The first helper whose static initialiser throws ends the startup there: it has been
   * initialised, the helpers after it have not, and its error propagates.
   */
  lemma {:induction false} FailingPhaseStopsStartup(cp: Classpath, failingInit: set<ClassName>, initialized: seq<ClassName>,
                                                    names: seq<ClassName>, k: nat)
    requires k < |names|
    requires forall j | 0 <= j <= k :: names[j] in cp.available && names[j] !in initialized
    requires forall j | 0 <= j < k :: names[j] !in failingInit
    requires names[k] in failingInit
    requires forall i, j | 0 <= i < j < |names| :: names[i] != names[j]
    ensures LoadAll(cp, failingInit, initialized, names) == (Failure(InitializerError(names[k])), initialized + names[..k + 1])
    decreases k
  {
    if k > 0 {
      var name := names[0];
      FailingPhaseStopsStartup(cp, failingInit, initialized + [name], names[1..], k - 1);
      assert initialized + [name] + names[1..][..k] == initialized + names[..k + 1];
    } else {
      assert names[..1] == [names[0]];
    }
  }

  /**
   * Running the startup again after a helper's static initialiser threw: the helpers before
   * it are already initialised and load silently, and the broken one now fails with a
   * NoClassDefFoundError, with nothing newly initialised.
   */
  lemma {:induction false} RerunStopsAtBrokenPhase(cp: Classpath, failingInit: set<ClassName>, initialized: seq<ClassName>,
                                                   names: seq<ClassName>, k: nat)
    requires k < |names|
    requires forall j | 0 <= j <= k :: names[j] in cp.available && names[j] in initialized
    requires forall j | 0 <= j < k :: names[j] !in failingInit
    requires names[k] in failingInit
    ensures LoadAll(cp, failingInit, initialized, names) == (Failure(NoClassDefFound(names[k])), initialized)
    decreases k
  {
    if k > 0 {
      RerunStopsAtBrokenPhase(cp, failingInit, initialized, names[1..], k - 1);
    }
  }

  /**
   * A fresh startup whose BeanHelper initialiser throws ends with an
   * ExceptionInInitializerError; a second init on the same class loader ends with a
   * NoClassDefFoundError instead of succeeding.
   */
  lemma BrokenBeanHelperStaysBroken(cp: Classpath)
    requires forall k | 0 <= k < |HELPERS| :: HELPERS[k] in cp.available
    ensures Startup(cp, {BEAN_HELPER}, []) == (Failure(InitializerError(BEAN_HELPER)), [CLASS_HELPER, BEAN_HELPER])
    ensures Startup(cp, {BEAN_HELPER}, [CLASS_HELPER, BEAN_HELPER]) == (Failure(NoClassDefFound(BEAN_HELPER)), [CLASS_HELPER, BEAN_HELPER])
  {
    HelpersDistinct();
    FailingPhaseStopsStartup(cp, {BEAN_HELPER}, [], HELPERS, 1);
    assert HELPERS[..2] == [CLASS_HELPER, BEAN_HELPER];
    RerunStopsAtBrokenPhase(cp, {BEAN_HELPER}, [CLASS_HELPER, BEAN_HELPER], HELPERS, 1);
  }

  /**
   * A helper missing from the class path stops init before any static initialiser runs: the
   * first unresolvable helper's NoClassDefFoundError propagates and nothing is initialised.
   */
  lemma MissingHelperInitializesNothing(cp: Classpath, failingInit: set<ClassName>, initialized: seq<ClassName>, k: nat)
    requires k < |HELPERS| && HELPERS[k] !in cp.available
    requires forall j | 0 <= j < k :: HELPERS[j] in cp.available
    ensures Startup(cp, failingInit, initialized) == (Failure(NoClassDefFound(HELPERS[k])), initialized)
  {
  }

  /** With only IocHelper missing, init fails at once: ClassHelper, BeanHelper and AopHelper are not initialised either. */
  lemma MissingIocHelper(cp: Classpath, failingInit: set<ClassName>)
    requires CLASS_HELPER in cp.available && BEAN_HELPER in cp.available && AOP_HELPER in cp.available
    requires IOC_HELPER !in cp.available
    ensures Startup(cp, failingInit, []) == (Failure(NoClassDefFound(IOC_HELPER)), [])
  {
    MissingHelperInitializesNothing(cp, failingInit, [], 3);
  }
}
