/**
 * AopHelper: the weaving done once at startup.  Each @Aspect selector is resolved into a set
 * of target classes; the transaction aspect is added against every @Service class; the
 * aspect-to-targets map is inverted into a target-to-aspect-instances map; and every target
 * bean is replaced by a proxy over its aspect instances.  The reflective facts the code asks
 * of classes are given as an Application value, the bean container as a map.
 */
module AopHelper {
  import opened Base
  import opened ClassUtil

  /** The @Aspect annotation: a package and a class name, both "" unless given. */
  datatype AspectAnnotation = AspectAnnotation(pkg: string, cls: string)

  /** The class-level facts the weaving reads. */
  datatype Application = Application(
    aspectProxySubclasses: set<ClassName>,               // the scanned subclasses of AspectProxy
    aspectAnnotations: map<ClassName, AspectAnnotation>, // the classes carrying @Aspect, and its values
    serviceClasses: set<ClassName>,                      // the scanned classes carrying @Service
    instantiable: set<ClassName>,                        // classes newInstance can instantiate
    unproxyable: set<ClassName>)                         // classes proxy creation fails for

  /** The built-in transaction aspect. */
  const TRANSACTION_PROXY: ClassName := "cn.egret.proxy.TransactionProxy"

  /**
   * A new instance of an aspect class.  createTargetMap calls newInstance once for each
   * (aspect class, target class) pair, so that pair identifies the instance.
   */
  datatype AspectInstance = AspectInstance(aspectClass: ClassName, createdFor: ClassName)

  /** A bean: a plain instance of its class, or a proxy of a target class over a list of aspects. */
  datatype Bean = Plain(cls: ClassName) | Proxied(target: ClassName, aspects: seq<AspectInstance>)

  /**
   * How a step of the static block ends: with a value, with an Exception (which the block's
   * `catch (Exception e)` takes and logs), or with an Error, which that catch does not take.
   */
  datatype Attempt<+T> = Done(value: T) | CaughtException | EscapingError(error: JavaException)

  /** The class a selector naming both pkg and cls loads: pkg + "." + cls. */
  function SelectedClass(aspect: AspectAnnotation): ClassName {
    aspect.pkg + "." + aspect.cls
  }

  /**
   * createTargetClassSet against the class loader's state: both pkg and cls given, the one
   * class pkg.cls, through Class.forName, which throws ClassNotFoundException when there is no
   * such class and runs the class's static initialiser if it has not run (an initialiser that
   * throws gives ExceptionInInitializerError, one that threw before NoClassDefFoundError);
   * only pkg given, every class getClassSet finds in it (which throws a RuntimeException when
   * the scan fails); pkg empty, no class at all.
   */
  function TargetClassSet(aspect: AspectAnnotation, ls: LoaderState): (r: Attempt<set<ClassName>>)
    ensures aspect.pkg == "" ==> r == Done({})
    ensures aspect.pkg != "" && aspect.cls != "" ==>
      var name := SelectedClass(aspect);
      && (r.Done? <==> name in ls.classpath.available && name !in ls.failingInit)
      && (r.Done? ==> r.value == {name})
      && (r.CaughtException? <==> name !in ls.classpath.available)
      && (r.EscapingError? ==> r.error == if name in ls.initialized then NoClassDefFound(name) else InitializerError(name))
    ensures aspect.pkg != "" && aspect.cls == "" ==>
      && (r.Done? <==> ScanSucceeds(ls.classpath, aspect.pkg))
      && (r.Done? ==> r.value == PackageClasses(ls.classpath, aspect.pkg))
      && !r.EscapingError?
    ensures r.EscapingError? ==> !r.error.IsException()
  {
    if aspect.pkg != "" && aspect.cls != "" then
      var name := SelectedClass(aspect);
      if name !in ls.classpath.available then CaughtException
      else if name !in ls.failingInit then Done({name})
      else if name in ls.initialized then EscapingError(NoClassDefFound(name))
      else EscapingError(InitializerError(name))
    else if aspect.pkg != "" then
      if ScanSucceeds(ls.classpath, aspect.pkg) then Done(PackageClasses(ls.classpath, aspect.pkg)) else CaughtException
    else Done({})
  }

  /** The classes whose static initialiser resolving the selector runs: pkg.cls the first time it is loaded. */
  function SelectorInitializes(aspect: AspectAnnotation, ls: LoaderState): (inits: seq<ClassName>)
    ensures |inits| <= 1
    ensures inits != [] ==>
      && aspect.pkg != "" && aspect.cls != "" && inits == [SelectedClass(aspect)]
      && SelectedClass(aspect) in ls.classpath.available && SelectedClass(aspect) !in ls.initialized
  {
    var name := SelectedClass(aspect);
    if aspect.pkg != "" && aspect.cls != "" && name in ls.classpath.available && name !in ls.initialized then [name] else []
  }

  /** createTargetClassSet, run against a class loader; it initialises pkg.cls when it loads it. */
  method CreateTargetClassSet(aspect: AspectAnnotation, loader: ClassLoader) returns (r: Attempt<set<ClassName>>)
    modifies loader
    ensures r == TargetClassSet(aspect, old(loader.State()))
    ensures loader.initialized == old(loader.initialized) + SelectorInitializes(aspect, old(loader.State()))
  {
    if aspect.pkg != "" && aspect.cls != "" {
      var loaded := loader.LoadClass(SelectedClass(aspect), true);
      if loaded.Success? {
        r := Done({loaded.value});
      } else if loaded.error.IsException() {
        r := CaughtException;
      } else {
        r := EscapingError(loaded.error);
      }
    } else if aspect.pkg != "" {
      var scanned, _ := GetClassSet(loader, aspect.pkg);
      r := if scanned.Success? then Done(scanned.value) else CaughtException;
    } else {
      r := Done({});
    }
  }

  /**
   * A selector's outcome does not depend on classes initialised since, as long as no
   * class with a failing initialiser has been initialised in between.
   */
  lemma SelectionStable(aspect: AspectAnnotation, ls: LoaderState, later: LoaderState)
    requires later.classpath == ls.classpath && later.failingInit == ls.failingInit
    requires SameFailedInits(ls, later)
    ensures TargetClassSet(aspect, later) == TargetClassSet(aspect, ls)
  {
  }

  /** Between two states, the classes with a failing initialiser have been initialised in neither or both. */
  predicate SameFailedInits(ls: LoaderState, later: LoaderState) {
    forall n | n in ls.failingInit :: n in later.initialized <==> n in ls.initialized
  }

  /** The aspect classes addAspectProxy keeps: subclasses of AspectProxy that carry @Aspect. */
  function DeclaredAspects(app: Application): (s: set<ClassName>)
    ensures forall a :: a in s <==> a in app.aspectProxySubclasses && a in app.aspectAnnotations
  {
    set a | a in app.aspectProxySubclasses && a in app.aspectAnnotations
  }

  /** Every declared aspect's selector resolves without throwing. */
  predicate SelectorsResolve(app: Application, ls: LoaderState) {
    forall a | a in DeclaredAspects(app) :: TargetClassSet(app.aspectAnnotations[a], ls).Done?
  }

  /** The classes the declared aspects' single-class selectors name. */
  function SelectorClasses(app: Application): set<ClassName> {
    set a | a in DeclaredAspects(app) && app.aspectAnnotations[a].pkg != "" && app.aspectAnnotations[a].cls != "" ::
      SelectedClass(app.aspectAnnotations[a])
  }

  /**
   * createAspectMap, against the class loader: each declared aspect mapped to its selector's
   * classes, then the transaction aspect put against the service classes (replacing any
   * earlier entry).  A selector that throws ends it with what it throws; which one does,
   * when several would, depends on the set's unspecified iteration order.
   */
  method CreateAspectMap(app: Application, loader: ClassLoader) returns (r: Attempt<map<ClassName, set<ClassName>>>)
    modifies loader
    ensures r.Done? <==> SelectorsResolve(app, old(loader.State()))
    ensures r.Done? ==> r.value.Keys == DeclaredAspects(app) + {TRANSACTION_PROXY}
    ensures r.Done? ==> r.value[TRANSACTION_PROXY] == app.serviceClasses
    ensures r.Done? ==> forall a | a in r.value && a != TRANSACTION_PROXY ::
      TargetClassSet(app.aspectAnnotations[a], old(loader.State())) == Done(r.value[a])
    ensures r.CaughtException? ==> exists a | a in DeclaredAspects(app) ::
      TargetClassSet(app.aspectAnnotations[a], old(loader.State())).CaughtException?
    ensures r.EscapingError? ==> exists a | a in DeclaredAspects(app) ::
      TargetClassSet(app.aspectAnnotations[a], old(loader.State())) == EscapingError(r.error)
    ensures |old(loader.initialized)| <= |loader.initialized| && loader.initialized[..|old(loader.initialized)|] == old(loader.initialized)
    ensures forall k | |old(loader.initialized)| <= k < |loader.initialized| :: loader.initialized[k] in SelectorClasses(app)
  {
    ghost var start := loader.State();
    var aspectMap: map<ClassName, set<ClassName>> := map[];
    // addAspectProxy: the loop over the set of subclasses, in the set's unspecified order.
    var remaining := app.aspectProxySubclasses;
    while remaining != {}
      invariant remaining <= app.aspectProxySubclasses
      invariant forall a :: a in aspectMap <==> a in DeclaredAspects(app) && a !in remaining
      invariant forall a | a in aspectMap :: TargetClassSet(app.aspectAnnotations[a], start) == Done(aspectMap[a])
      invariant loader.classpath == start.classpath && loader.failingInit == start.failingInit
      invariant SameFailedInits(start, loader.State())
      invariant |start.initialized| <= |loader.initialized| && loader.initialized[..|start.initialized|] == start.initialized
      invariant forall k | |start.initialized| <= k < |loader.initialized| :: loader.initialized[k] in SelectorClasses(app)
      decreases |remaining|
    {
      var aspectClass :| aspectClass in remaining;
      if aspectClass in app.aspectAnnotations {
        var aspect := app.aspectAnnotations[aspectClass];
        SelectionStable(aspect, start, loader.State());
        ghost var before := loader.initialized;
        var targets := CreateTargetClassSet(aspect, loader);
        InitializedGrows(app, aspectClass, start, before, loader.initialized);
        if !targets.Done? {
          return if targets.CaughtException? then CaughtException else EscapingError(targets.error);
        }
        aspectMap := aspectMap[aspectClass := targets.value];
      }
      remaining := remaining - {aspectClass};
    }
    // addTransactionProxy.
    aspectMap := aspectMap[TRANSACTION_PROXY := app.serviceClasses];
    r := Done(aspectMap);
  }

  /** One selector's initialisation keeps the loop's facts about the initialised classes. */
  lemma InitializedGrows(app: Application, a: ClassName, start: LoaderState, before: seq<ClassName>, after: seq<ClassName>)
    requires a in DeclaredAspects(app)
    requires |start.initialized| <= |before| && before[..|start.initialized|] == start.initialized
    requires forall k | |start.initialized| <= k < |before| :: before[k] in SelectorClasses(app)
    requires after == before + SelectorInitializes(app.aspectAnnotations[a], LoaderState(start.classpath, start.failingInit, before))
    ensures |start.initialized| <= |after| && after[..|start.initialized|] == start.initialized
    ensures forall k | |start.initialized| <= k < |after| :: after[k] in SelectorClasses(app)
  {
    var aspect := app.aspectAnnotations[a];
    assert after[..|before|] == before;
    assert after[..|start.initialized|] == before[..|start.initialized|];
    if after != before {
      assert SelectedClass(aspect) in SelectorClasses(app);
    }
  }

  /** Every class some aspect of the map targets. */
  function Targeted(aspectMap: map<ClassName, set<ClassName>>): (ts: set<ClassName>)
    ensures forall t | t in ts :: exists a | a in aspectMap :: t in aspectMap[a]
  {
    set a, t | a in aspectMap && t in aspectMap[a] :: t
  }

  /** The aspect classes whose target set holds t. */
  function AspectsTargeting(aspectMap: map<ClassName, set<ClassName>>, t: ClassName): (s: set<ClassName>)
    ensures forall a :: a in s <==> a in aspectMap && t in aspectMap[a]
  {
    set a | a in aspectMap && t in aspectMap[a]
  }

  /** The inversion createTargetMap performs, on classes: each targeted class to the aspects targeting it. */
  function Inverted(aspectMap: map<ClassName, set<ClassName>>): (inv: map<ClassName, set<ClassName>>)
    ensures forall t | t in inv :: inv[t] != {} && inv[t] <= aspectMap.Keys
  {
    map t | t in Targeted(aspectMap) :: AspectsTargeting(aspectMap, t)
  }

  /** A class is a key of the inversion iff some aspect targets it; its entry is never empty. */
  lemma InvertedCharacterization(aspectMap: map<ClassName, set<ClassName>>, t: ClassName, a: ClassName)
    ensures t in Inverted(aspectMap) <==> exists b | b in aspectMap :: t in aspectMap[b]
    ensures t in Inverted(aspectMap) ==> (a in Inverted(aspectMap)[t] <==> a in aspectMap && t in aspectMap[a])
    ensures t in Inverted(aspectMap) ==> Inverted(aspectMap)[t] != {}
  {
    if t in Inverted(aspectMap) {
      var b :| b in aspectMap && t in aspectMap[b];
      assert b in AspectsTargeting(aspectMap, t);
    }
  }

  /** The aspect classes of a list of instances. */
  function ClassesOf(aspects: seq<AspectInstance>): set<ClassName> {
    set k | 0 <= k < |aspects| :: aspects[k].aspectClass
  }

  /** Each aspect class occurs at most once in the list. */
  predicate NoRepeatedClass(aspects: seq<AspectInstance>) {
    forall i, j | 0 <= i < j < |aspects| :: aspects[i].aspectClass != aspects[j].aspectClass
  }

  /** Appending an instance of a class not yet in the list adds that class and repeats none. */
  lemma AppendInstance(list: seq<AspectInstance>, inst: AspectInstance)
    requires NoRepeatedClass(list) && inst.aspectClass !in ClassesOf(list)
    ensures ClassesOf(list + [inst]) == ClassesOf(list) + {inst.aspectClass}
    ensures NoRepeatedClass(list + [inst])
  {
    var ext := list + [inst];
    forall c | c in ClassesOf(ext) ensures c in ClassesOf(list) + {inst.aspectClass} {
      var k :| 0 <= k < |ext| && ext[k].aspectClass == c;
      if k < |list| { assert ext[k] == list[k]; }
    }
    forall c | c in ClassesOf(list) ensures c in ClassesOf(ext) {
      var k :| 0 <= k < |list| && list[k].aspectClass == c;
      assert ext[k] == list[k];
    }
    assert ext[|list|].aspectClass == inst.aspectClass;
    forall i, j | 0 <= i < j < |ext| ensures ext[i].aspectClass != ext[j].aspectClass {
      if j == |list| {
        assert ext[i] == list[i];
        assert list[i].aspectClass in ClassesOf(list);
      } else {
        assert ext[i] == list[i] && ext[j] == list[j];
      }
    }
  }

  /** No instance occurs twice anywhere in the target map: none is shared between two targets. */
  predicate InstancesDistinct(targetMap: map<ClassName, seq<AspectInstance>>) {
    forall t1, t2, i, j | t1 in targetMap && t2 in targetMap && 0 <= i < |targetMap[t1]| && 0 <= j < |targetMap[t2]| &&
      (t1 != t2 || i != j) :: targetMap[t1][i] != targetMap[t2][j]
  }

  /** Every list of the target map is non-empty, repeats no aspect class and holds instances made for its target. */
  predicate ListsProper(targetMap: map<ClassName, seq<AspectInstance>>) {
    && (forall t | t in targetMap :: targetMap[t] != [] && NoRepeatedClass(targetMap[t]))
    && (forall t, i | t in targetMap && 0 <= i < |targetMap[t]| :: targetMap[t][i].createdFor == t)
  }

  /** Instances made for different pairs are different instances. */
  lemma ProperListsDistinct(targetMap: map<ClassName, seq<AspectInstance>>)
    requires ListsProper(targetMap)
    ensures InstancesDistinct(targetMap)
  {
  }

  /**
   * The target map inverts the part of the aspect map whose aspects are in `done`, together
   * with the targets `cur` of aspect class a: t carries an instance of b exactly when b is
   * done and targets t, or b is a and t is in cur.
   */
  ghost predicate InvertsOn(targetMap: map<ClassName, seq<AspectInstance>>, aspectMap: map<ClassName, set<ClassName>>,
                            done: set<ClassName>, a: ClassName, cur: set<ClassName>) {
    && ListsProper(targetMap)
    && (forall t, b :: (t in targetMap && b in ClassesOf(targetMap[t])) <==>
                       ((b in done && b in aspectMap && t in aspectMap[b]) || (b == a && t in cur)))
  }

  /** Inverting all of the aspect map is the inversion Inverted, with one instance per aspect class. */
  lemma InvertsAll(targetMap: map<ClassName, seq<AspectInstance>>, aspectMap: map<ClassName, set<ClassName>>, a: ClassName)
    requires InvertsOn(targetMap, aspectMap, aspectMap.Keys, a, {})
    ensures targetMap.Keys == Inverted(aspectMap).Keys
    ensures forall t | t in targetMap :: ClassesOf(targetMap[t]) == Inverted(aspectMap)[t]
  {
    forall t | t in targetMap ensures t in Inverted(aspectMap) {
      var b := targetMap[t][0].aspectClass;
      assert b in ClassesOf(targetMap[t]);
      assert b in aspectMap && t in aspectMap[b];
      InvertedCharacterization(aspectMap, t, b);
    }
    forall t | t in Inverted(aspectMap) ensures t in targetMap {
      var b :| b in aspectMap && t in aspectMap[b];
      InvertedCharacterization(aspectMap, t, b);
    }
    forall t | t in targetMap ensures ClassesOf(targetMap[t]) == Inverted(aspectMap)[t] {
      forall b ensures b in ClassesOf(targetMap[t]) <==> b in Inverted(aspectMap)[t] {
        InvertedCharacterization(aspectMap, t, b);
      }
    }
  }

  /**
   * createTargetMap: for every (aspect class, target) pair a new instance of the aspect
   * (newInstance, which throws for a class it cannot instantiate), appended to the target's
   * list.  Both loops run over sets, so the order of each list is unspecified.
   */
  method CreateTargetMap(aspectMap: map<ClassName, set<ClassName>>, instantiable: set<ClassName>)
    returns (r: Option<map<ClassName, seq<AspectInstance>>>)
    ensures r.Some? <==> forall a | a in aspectMap && aspectMap[a] != {} :: a in instantiable
    ensures r.Some? ==> r.value.Keys == Inverted(aspectMap).Keys
    ensures r.Some? ==> forall t | t in r.value :: ClassesOf(r.value[t]) == Inverted(aspectMap)[t]
    ensures r.Some? ==> ListsProper(r.value) && InstancesDistinct(r.value)
  {
    ghost var none: ClassName := TRANSACTION_PROXY;
    r := InvertAspectMap(aspectMap, instantiable, none);
    if r.Some? {
      InvertsAll(r.value, aspectMap, none);
      ProperListsDistinct(r.value);
    }
  }

  /** The two loops of createTargetMap, proved against InvertsOn. */
  method InvertAspectMap(aspectMap: map<ClassName, set<ClassName>>, instantiable: set<ClassName>, ghost none: ClassName)
    returns (r: Option<map<ClassName, seq<AspectInstance>>>)
    ensures r.Some? <==> CanInstantiate(aspectMap, instantiable, aspectMap.Keys)
    ensures r.Some? ==> InvertsOn(r.value, aspectMap, aspectMap.Keys, none, {})
  {
    var targetMap: map<ClassName, seq<AspectInstance>> := map[];
    var remaining := aspectMap.Keys;
    ghost var done: set<ClassName> := {};
    while remaining != {}
      invariant remaining <= aspectMap.Keys && done == aspectMap.Keys - remaining
      invariant CanInstantiate(aspectMap, instantiable, done)
      invariant InvertsOn(targetMap, aspectMap, done, none, {})
      decreases |remaining|
    {
      var aspectClass :| aspectClass in remaining;
      var targets := aspectMap[aspectClass];
      if targets != {} && aspectClass !in instantiable {
        // newInstance throws on the first target.
        CannotInstantiate(aspectMap, instantiable, aspectClass);
        return None;
      }
      InstantiateStep(aspectMap, instantiable, done, aspectClass);
      targetMap := AddAspect(targetMap, aspectMap, done, none, aspectClass, targets);
      done := done + {aspectClass};
      remaining := remaining - {aspectClass};
    }
    assert done == aspectMap.Keys;
    r := Some(targetMap);
  }

  /** Every aspect class of `among` with a target can be instantiated. */
  predicate CanInstantiate(aspectMap: map<ClassName, set<ClassName>>, instantiable: set<ClassName>, among: set<ClassName>) {
    forall a | a in among && a in aspectMap :: a in instantiable || aspectMap[a] == {}
  }

  lemma InstantiateStep(aspectMap: map<ClassName, set<ClassName>>, instantiable: set<ClassName>, done: set<ClassName>, a: ClassName)
    requires CanInstantiate(aspectMap, instantiable, done) && a in aspectMap && (a in instantiable || aspectMap[a] == {})
    ensures CanInstantiate(aspectMap, instantiable, done + {a})
  {
  }

  lemma CannotInstantiate(aspectMap: map<ClassName, set<ClassName>>, instantiable: set<ClassName>, a: ClassName)
    requires a in aspectMap && a !in instantiable && aspectMap[a] != {}
    ensures !CanInstantiate(aspectMap, instantiable, aspectMap.Keys)
  {
  }

  /** Starting on a new aspect class changes nothing yet. */
  lemma StartAspect(targetMap: map<ClassName, seq<AspectInstance>>, aspectMap: map<ClassName, set<ClassName>>,
                    done: set<ClassName>, a: ClassName, a': ClassName)
    requires InvertsOn(targetMap, aspectMap, done, a, {})
    ensures InvertsOn(targetMap, aspectMap, done, a', {})
  {
  }

  /**
   * The inner loop of createTargetMap, for aspect class a and its target set: a new instance
   * of a appended against each target.
   */
  method AddAspect(targetMap: map<ClassName, seq<AspectInstance>>, ghost aspectMap: map<ClassName, set<ClassName>>,
                   ghost done: set<ClassName>, ghost none: ClassName, a: ClassName, targets: set<ClassName>)
    returns (tm: map<ClassName, seq<AspectInstance>>)
    requires a in aspectMap && a !in done && targets == aspectMap[a]
    requires InvertsOn(targetMap, aspectMap, done, none, {})
    ensures InvertsOn(tm, aspectMap, done + {a}, none, {})
  {
    StartAspect(targetMap, aspectMap, done, none, a);
    tm := targetMap;
    var todo := targets;
    ghost var cur: set<ClassName> := {};
    while todo != {}
      invariant todo <= targets && cur == targets - todo
      invariant InvertsOn(tm, aspectMap, done, a, cur)
      decreases |todo|
    {
      var targetClass :| targetClass in todo;
      var aspect := AspectInstance(a, targetClass);
      ghost var before := tm;
      ghost var list := if targetClass in tm then tm[targetClass] else [];
      if targetClass in tm {
        tm := tm[targetClass := tm[targetClass] + [aspect]];
      } else {
        tm := tm[targetClass := [aspect]];
        assert [] + [aspect] == [aspect];
      }
      AddOne(before, tm, aspectMap, done, a, cur, targetClass, list, aspect);
      cur := cur + {targetClass};
      todo := todo - {targetClass};
    }
    FinishAspect(tm, aspectMap, done, a, cur);
    StartAspect(tm, aspectMap, done + {a}, a, none);
  }

  /** One more target t of aspect class a: its list grows by the instance made for (a, t). */
  lemma AddOne(tm: map<ClassName, seq<AspectInstance>>, after: map<ClassName, seq<AspectInstance>>,
               aspectMap: map<ClassName, set<ClassName>>, done: set<ClassName>, a: ClassName, cur: set<ClassName>,
               t: ClassName, list: seq<AspectInstance>, inst: AspectInstance)
    requires InvertsOn(tm, aspectMap, done, a, cur) && a !in done && t !in cur
    requires list == (if t in tm then tm[t] else []) && inst == AspectInstance(a, t)
    requires after == tm[t := list + [inst]]
    ensures InvertsOn(after, aspectMap, done, a, cur + {t})
  {
    assert a !in ClassesOf(list);
    AppendInstance(list, inst);
    forall u | u in after ensures after[u] != [] && NoRepeatedClass(after[u]) {
      if u != t { assert after[u] == tm[u]; }
    }
    forall u, i | u in after && 0 <= i < |after[u]| ensures after[u][i].createdFor == u {
      if u != t { assert after[u] == tm[u]; }
      else if i < |list| { assert after[u][i] == list[i]; }
    }
    forall u, b ensures (u in after && b in ClassesOf(after[u])) <==>
                        ((b in done && b in aspectMap && u in aspectMap[b]) || (b == a && u in cur + {t})) {
      if u != t && u in after { assert after[u] == tm[u]; }
    }
  }

  /** Once every target of a is done, a joins the done aspects. */
  lemma FinishAspect(tm: map<ClassName, seq<AspectInstance>>, aspectMap: map<ClassName, set<ClassName>>,
                     done: set<ClassName>, a: ClassName, cur: set<ClassName>)
    requires a in aspectMap && cur == aspectMap[a] && InvertsOn(tm, aspectMap, done, a, cur)
    ensures InvertsOn(tm, aspectMap, done + {a}, a, {})
  {
  }

  /** The class-to-bean container of the framework, with setBean. */
  class BeanContainer {
    var beanMap: map<ClassName, Bean>

    constructor (beanMap: map<ClassName, Bean>)
      ensures this.beanMap == beanMap
    {
      this.beanMap := beanMap;
    }

    /** setBean(cls, obj): the entry of cls becomes obj. */
    method SetBean(cls: ClassName, obj: Bean)
      modifies this
      ensures beanMap == old(beanMap)[cls := obj]
    {
      beanMap := beanMap[cls := obj];
    }
  }

  /** The classes outside `changed` have the same entry (or none) after as before. */
  predicate Untouched(before: map<ClassName, Bean>, after: map<ClassName, Bean>, changed: set<ClassName>) {
    forall c | c in before.Keys + after.Keys && c !in changed :: (c in after <==> c in before) && (c in after ==> after[c] == before[c])
  }

  /**
   * The static block of AopHelper: the aspect map, the target map and the proxies put in the
   * bean container.  An Exception is caught and logged: what was replaced before it stays
   * replaced.  An Error from a selector's class initialisation is not caught: it ends the
   * static block, and so AopHelper's own initialisation, before any bean is replaced.
   * Returns the targets whose bean was replaced and the Error that escapes, if one does.
   */
  method Weave(app: Application, loader: ClassLoader, beans: BeanContainer)
    returns (woven: set<ClassName>, escaped: Option<JavaException>)
    modifies loader, beans
    ensures Untouched(old(beans.beanMap), beans.beanMap, woven)
    ensures forall c | c in woven :: c in beans.beanMap && beans.beanMap[c].Proxied? && beans.beanMap[c].target == c
    ensures woven !! app.unproxyable
    ensures escaped.Some? ==> woven == {} && !escaped.value.IsException() && exists a | a in DeclaredAspects(app) ::
      TargetClassSet(app.aspectAnnotations[a], old(loader.State())) == EscapingError(escaped.value)
    ensures (forall a | a in DeclaredAspects(app) :: !TargetClassSet(app.aspectAnnotations[a], old(loader.State())).EscapingError?) ==>
      escaped.None?
    ensures (forall a | a in DeclaredAspects(app) :: !TargetClassSet(app.aspectAnnotations[a], old(loader.State())).CaughtException?) ==>
      (escaped.None? <==> SelectorsResolve(app, old(loader.State())))
    ensures woven != {} ==> SelectorsResolve(app, old(loader.State())) && AspectsInstantiable(app, old(loader.State()))
    ensures SelectorsResolve(app, old(loader.State())) ==> woven <= Inverted(AspectMap(app, old(loader.State()))).Keys
    ensures SelectorsResolve(app, old(loader.State())) ==> forall c | c in woven ::
      ClassesOf(beans.beanMap[c].aspects) == Inverted(AspectMap(app, old(loader.State())))[c] && NoRepeatedClass(beans.beanMap[c].aspects)
    ensures (&& SelectorsResolve(app, old(loader.State())) && AspectsInstantiable(app, old(loader.State()))
             && Inverted(AspectMap(app, old(loader.State()))).Keys !! app.unproxyable) ==>
      woven == Inverted(AspectMap(app, old(loader.State()))).Keys
    ensures |old(loader.initialized)| <= |loader.initialized| && loader.initialized[..|old(loader.initialized)|] == old(loader.initialized)
    ensures forall k | |old(loader.initialized)| <= k < |loader.initialized| :: loader.initialized[k] in SelectorClasses(app)
  {
    ghost var start := loader.State();
    woven, escaped := {}, None;
    var aspectMap := CreateAspectMap(app, loader);
    if aspectMap.EscapingError? {
      return {}, Some(aspectMap.error);
    }
    if aspectMap.CaughtException? {
      return;
    }
    AspectMapIs(app, start, aspectMap.value);
    var targetMap := CreateTargetMap(aspectMap.value, app.instantiable);
    if targetMap.None? {
      return;
    }
    woven := ReplaceBeans(targetMap.value, app.unproxyable, beans);
  }

  /**
   * The loop of the static block over the target map's entries, in its unspecified order: a
   * proxy of each target over its aspect list replaces its bean, until createProxy throws.
   */
  method ReplaceBeans(targetMap: map<ClassName, seq<AspectInstance>>, unproxyable: set<ClassName>, beans: BeanContainer)
    returns (woven: set<ClassName>)
    modifies beans
    ensures woven <= targetMap.Keys && woven !! unproxyable
    ensures targetMap.Keys !! unproxyable ==> woven == targetMap.Keys
    ensures Untouched(old(beans.beanMap), beans.beanMap, woven)
    ensures forall c | c in woven :: c in beans.beanMap && beans.beanMap[c] == Proxied(c, targetMap[c])
  {
    woven := {};
    var remaining := targetMap.Keys;
    while remaining != {}
      invariant remaining <= targetMap.Keys && woven == targetMap.Keys - remaining
      invariant woven !! unproxyable
      invariant Untouched(old(beans.beanMap), beans.beanMap, woven)
      invariant forall c | c in woven :: c in beans.beanMap && beans.beanMap[c] == Proxied(c, targetMap[c])
      decreases |remaining|
    {
      var targetClass :| targetClass in remaining;
      if targetClass in unproxyable {
        // createProxy throws; the exception ends the loop and is logged.
        return;
      }
      beans.SetBean(targetClass, Proxied(targetClass, targetMap[targetClass]));
      woven := woven + {targetClass};
      remaining := remaining - {targetClass};
    }
  }

  /** The aspect map createAspectMap builds when every selector resolves. */
  function AspectMap(app: Application, ls: LoaderState): (m: map<ClassName, set<ClassName>>)
    requires SelectorsResolve(app, ls)
    ensures m.Keys == DeclaredAspects(app) + {TRANSACTION_PROXY}
  {
    (map a | a in DeclaredAspects(app) :: TargetClassSet(app.aspectAnnotations[a], ls).value)[TRANSACTION_PROXY := app.serviceClasses]
  }

  /** Every aspect class with a non-empty target set can be instantiated. */
  predicate AspectsInstantiable(app: Application, ls: LoaderState)
    requires SelectorsResolve(app, ls)
  {
    var m := AspectMap(app, ls);
    forall a | a in m && m[a] != {} :: a in app.instantiable
  }

  /** createAspectMap's result is AspectMap. */
  lemma AspectMapIs(app: Application, ls: LoaderState, m: map<ClassName, set<ClassName>>)
    requires SelectorsResolve(app, ls)
    requires m.Keys == DeclaredAspects(app) + {TRANSACTION_PROXY}
    requires m[TRANSACTION_PROXY] == app.serviceClasses
    requires forall a | a in m && a != TRANSACTION_PROXY :: TargetClassSet(app.aspectAnnotations[a], ls) == Done(m[a])
    ensures m == AspectMap(app, ls)
  {
  }

  /** Every @Service class is a target of the transaction aspect, whatever the declared aspects. */
  lemma ServicesGetTransactionAspect(app: Application, ls: LoaderState, service: ClassName)
    requires SelectorsResolve(app, ls) && service in app.serviceClasses
    ensures service in Inverted(AspectMap(app, ls)) && TRANSACTION_PROXY in Inverted(AspectMap(app, ls))[service]
  {
    var m := AspectMap(app, ls);
    assert TRANSACTION_PROXY in m && service in m[TRANSACTION_PROXY];
    InvertedCharacterization(m, service, TRANSACTION_PROXY);
  }

  /** The example application's EfficientAspect selector, spelt as the concatenation the code builds. */
  lemma UserControllerName()
    ensures SelectedClass(AspectAnnotation("cn.egret.controller", "UserController")) == "cn.egret.controller.UserController"
  {
  }

  /**
   * @Aspect(pkg = "cn.egret.controller", cls = "UserController") targets exactly that one
   * class when it loads; when its static initialiser throws, weaving ends with an Error.
   */
  lemma EfficientAspectTargetsUserController(ls: LoaderState)
    requires "cn.egret.controller.UserController" in ls.classpath.available
    ensures var name := "cn.egret.controller.UserController";
      var r := TargetClassSet(AspectAnnotation("cn.egret.controller", "UserController"), ls);
      && (name !in ls.failingInit ==> r == Done({name}))
      && (name in ls.failingInit && name !in ls.initialized ==> r == EscapingError(InitializerError(name)))
      && (name in ls.failingInit && name in ls.initialized ==> r == EscapingError(NoClassDefFound(name)))
  {
    UserControllerName();
  }
}
