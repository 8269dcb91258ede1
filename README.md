# HandWrittenSpring core, modelled in Dafny

HandWrittenSpring is a small IoC/AOP/MVC framework, similar to Spring in structure. At startup it:

1. scans the classes of the application package;
2. creates the beans;
3. weaves aspects into them by replacing target beans with proxies;
4. injects dependencies;
5. builds a route table from the `@RequestMapping` annotations of controller methods.

A servlet then dispatches each HTTP request. It looks the request up in the route table, calls the handler with or without a `Param`, and turns the result into a redirect, a forward or JSON output.

This project models the sequential core of that framework and proves properties of the model.

- **Interception chain** (`Proxy`, `ProxyProperties`)
  - `ProxyChain` is a class with the fixed call data, the aspect list and the cursor `proxyIndex`.
  - `AspectProxy.doProxy` runs the final hook protocol: `begin`, `intercept`, `before` / rest of the chain / `after`, `error` and rethrow, and `end` in a `finally`.
  - Both are methods that append hook events to a trace. They are proved equal to the spec functions `RunChain` and `RunAspect`.
  - The lemmas prove:
    - the target runs at most once, and exactly when every aspect passes the call on;
    - a normal result is the target's own;
    - the aspects nest: entry hooks outermost first, exit hooks innermost first;
    - `after` fires only on a normal return;
    - `error` fires only for an `Exception`;
    - `end` always runs.
- **Aspect weaving** (`AopHelper`)
  - Each `@Aspect(pkg, cls)` selector is resolved into target classes.
  - The transaction aspect is mapped to every `@Service` class.
  - The aspect→targets map is inverted into target→aspect-instance lists by loops over maps.
  - The bean container (a class over a map) gets one proxy per target.
  - If an exception is raised part-way, the replacements already made stay in place.
  - Resolving a single-class selector initialises that class through the class loader; an Error from its static initialiser is not caught by the static block and escapes before any bean is replaced.
- **Routing** (`Bean`, `ControllerHelper`)
  - `Request` has its `equals` and its 32-bit `hashCode`.
  - The route table is built by nested loops and is proved equal to "the last put for each key wins".
  - `getHandler` is an exact lookup.
  - `Param.isEmpty` and the `RequestMethod` names are modelled too.
- **Dispatch** (`DispatcherServlet`)
  - Path normalisation follows Java `split("/")`.
  - The verb is upper-cased.
  - The handler's argument is chosen.
  - The result becomes a redirect, a forward or JSON output; the forward copies the model into the request attributes.
  - An exception thrown by the controller call propagates out of `service`, with no attribute set.
  - `service` and `handleViewResult` are methods on a mutable request object, tied to a spec function `Dispatch`.
- **Class scanning** (`ClassUtil`)
  - `loadClass` works against a class-loader object that records which classes it has initialised.
  - The recursive `addClass` walks a directory tree given as a value.
  - The jar branch converts entry names to class names.
  - `getClassSet` loops over the URLs of the resource path.
  - Each is proved to collect exactly the union of the class names the tree, the entries or the URLs yield.
- **Startup order** (`HelperLoader`)
  - `init` loads the five helper classes with initialisation, in a fixed order, and stops at the first throwable.
  - The class-literal array is resolved before the loop: a helper missing from the class path throws NoClassDefFoundError before any initialiser runs.
  - A helper whose static initialiser threw fails with NoClassDefFoundError on every later init (section 12.4.2 of the Java Language Specification).

The Java library behaviour these rely on is stated in `JavaString`:

- `String.split` drops trailing empty strings;
- `lastIndexOf`;
- `replace`;
- decoding `"%20"` into a space;
- ASCII `toUpperCase`;
- `String.hashCode` with 32-bit wrap-around.

`Base` holds `Option`, `Result` and the Java exceptions that appear.

Where the framework calls code that is not shown, that code becomes a parameter or a value:

- the target method (`MethodProxy.invokeSuper`);
- the controller method invocation (`ReflectionUtil`);
- `RequestHelper.createParam`'s result;
- the file system and jar files;
- the class path;
- the reflective facts about classes (which are `@Aspect`, `@Service`, subclasses of `AspectProxy`, instantiable, proxyable).

## Model

| member | source | states |
|---|---|---|
| JavaString.LastIndexOf | FrameWork/src/main/java/cn/egret/util/ClassUtil.java:129 | the index of the last occurrence of the character, or -1 when it does not occur |
| JavaString.ReplaceChar | FrameWork/src/main/java/cn/egret/util/ClassUtil.java:65 | same length; each occurrence of `from` becomes `to`, every other character is kept |
| JavaString.StartsWith | FrameWork/src/main/java/cn/egret/DispatcherServlet.java:152 | startsWith: the prefix fits and matches s character by character |
| JavaString.EndsWith | FrameWork/src/main/java/cn/egret/util/ClassUtil.java:120 | endsWith: the suffix fits and matches the end of s character by character |
| JavaString.DecodeSpacesHead | FrameWork/src/main/java/cn/egret/util/ClassUtil.java:73 | a non-empty path decodes to a non-empty one whose first character is a space exactly when the path starts with "%20" |
| JavaString.DecodeSpaces | FrameWork/src/main/java/cn/egret/util/ClassUtil.java:73 | replaceAll("%20", " ") never lengthens a string and empties only the empty string |
| JavaString.DecodeSpacesRemovesEscapes | FrameWork/src/main/java/cn/egret/util/ClassUtil.java:73 | no "%20" is left in the decoded path |
| JavaString.DecodeSpacesWithoutPercent | FrameWork/src/main/java/cn/egret/util/ClassUtil.java:73 | a path without '%' is unchanged by the decoding |
| JavaString.FieldsJoin | FrameWork/src/main/java/cn/egret/DispatcherServlet.java:107 | the fields of a string around a separator join back to the string, and none contains the separator |
| JavaString.FieldsWithoutSeparator | FrameWork/src/main/java/cn/egret/DispatcherServlet.java:107 | a string without the separator is a single field |
| JavaString.FieldsOfPiece | FrameWork/src/main/java/cn/egret/DispatcherServlet.java:107 | a separator-free piece followed by the separator is the first field, followed by the fields of the rest |
| JavaString.DropTrailingEmpty | FrameWork/src/main/java/cn/egret/DispatcherServlet.java:107 | a prefix of the parts that does not end with an empty string, and only empty strings were dropped |
| JavaString.Split | FrameWork/src/main/java/cn/egret/DispatcherServlet.java:107 | no part of `split` contains the separator |
| JavaString.UpperAscii | FrameWork/src/main/java/cn/egret/DispatcherServlet.java:94 | same length; each character upper-cased on its own |
| JavaString.UpperAsciiIdempotent | FrameWork/src/main/java/cn/egret/DispatcherServlet.java:94 | upper-casing twice is upper-casing once |
| JavaString.Wrap32 | FrameWork/src/main/java/cn/egret/bean/Request.java:32-37 | the int value congruent to x modulo 2^32, in [-2^31, 2^31) |
| JavaString.WrapCongruent | FrameWork/src/main/java/cn/egret/bean/Request.java:32-37 | values congruent modulo 2^32 wrap to the same int |
| JavaString.HashCode | FrameWork/src/main/java/cn/egret/bean/Request.java:34-35 | String.hashCode is a 32-bit int |
| JavaString.HashCodeIsWrappedPolynomial | FrameWork/src/main/java/cn/egret/bean/Request.java:34-35 | String.hashCode, wrapped at every step, equals the unbounded 31-polynomial of the characters wrapped once |
| Proxy.AspectProxy.DoProxy | FrameWork/src/main/java/cn/egret/proxy/AspectProxy.java:18-49 | the events doProxy appends, its result and the cursor it leaves are those of the hook protocol RunAspect: begin, try block, error on an Exception, end |
| Proxy.AspectProxy.TryPart | FrameWork/src/main/java/cn/egret/proxy/AspectProxy.java:29-39 | the try block's events, outcome and cursor are those of TryBlock: intercept, then before / rest of the chain / after, or the rest of the chain alone |
| Proxy.DefaultAspect | FrameWork/src/main/java/cn/egret/proxy/AspectProxy.java:54-86 | the default hooks: intercept is constantly true, before and after return normally |
| Proxy.RunChain | FrameWork/src/main/java/cn/egret/proxy/ProxyChain.java:79-89 | the cursor never moves backwards and never passes the end of the list; it advances whenever an aspect is left to run |
| Proxy.RunAspect | FrameWork/src/main/java/cn/egret/proxy/AspectProxy.java:28-46 | begin is the first event of every doProxy and end is the last, whatever the try block did |
| Proxy.Caught | FrameWork/src/main/java/cn/egret/proxy/AspectProxy.java:40-43 | at most one error event per doProxy |
| Proxy.TryBlock | FrameWork/src/main/java/cn/egret/proxy/AspectProxy.java:29-39 | the try block leaves the cursor past this aspect and within the list |
| Proxy.AfterStep | FrameWork/src/main/java/cn/egret/proxy/AspectProxy.java:34-36 | running after does not move the cursor |
| Proxy.ProxyChain.constructor | FrameWork/src/main/java/cn/egret/proxy/ProxyChain.java:50-57 | a fresh chain stores target, method, proxy, params and aspect list as given, with cursor 0 and no events |
| Proxy.ProxyChain.DoProxyChain | FrameWork/src/main/java/cn/egret/proxy/ProxyChain.java:79-89 | the events, result and final cursor of doProxyChain are those of RunChain: the aspect at the cursor with the cursor advanced by one, or at the end the target with the stored params |
| Proxy.InvokeThroughChain | FrameWork/src/main/java/cn/egret/proxy/ProxyChain.java:50-89 | a new chain run from its first aspect yields exactly RunChain from cursor 0 |
| ProxyProperties.ChainFacts | FrameWork/src/main/java/cn/egret/proxy/ProxyChain.java:79-89 | from any cursor: the target occurs once if every remaining aspect passes the call on and never otherwise; every event belongs to a remaining aspect; a normal result is the target's |
| ProxyProperties.ChainStepFacts | FrameWork/src/main/java/cn/egret/proxy/ProxyChain.java:81-83 | the same facts when the cursor is on an aspect |
| ProxyProperties.AspectFacts | FrameWork/src/main/java/cn/egret/proxy/AspectProxy.java:28-48 | the same facts for one doProxy: the target runs iff this aspect and all later ones pass on |
| ProxyProperties.TryBlockFacts | FrameWork/src/main/java/cn/egret/proxy/AspectProxy.java:29-39 | the same facts for the try block of doProxy |
| ProxyProperties.TargetRunsAtMostOnce | FrameWork/src/main/java/cn/egret/proxy/ProxyChain.java:85-86 | the target is invoked at most once, and it is invoked iff every aspect passes the call on |
| ProxyProperties.ResultIsTargetResult | FrameWork/src/main/java/cn/egret/proxy/ProxyChain.java:80-88 | a normal result of the chain is the target's own return value: no hook alters it |
| ProxyProperties.Flatten | FrameWork/src/main/java/cn/egret/proxy/AspectProxy.java:28-46 | when every aspect passes on, the run is all entry hooks (outermost first), then the target once, then the exit hooks (innermost first) with the outcome they produce; the cursor ends at the end of the list |
| ProxyProperties.FlattenStep | FrameWork/src/main/java/cn/egret/proxy/AspectProxy.java:28-46 | the aspect at the cursor wraps the flattened run of the rest of the chain |
| ProxyProperties.FlattenBody | FrameWork/src/main/java/cn/egret/proxy/AspectProxy.java:29-39 | the try block of that aspect around the flattened rest |
| ProxyProperties.TwoAspectsNest | FrameWork/src/main/java/cn/egret/proxy/AspectProxy.java:28-46 | for [A, B] intercepting and a target that returns: A.begin, A.before, B.begin, B.before, target, B.after, B.end, A.after, A.end, and the target's result |
| ProxyProperties.TwoEntries | FrameWork/src/main/java/cn/egret/proxy/AspectProxy.java:28-32 | the entry hooks of [A, B]: A.begin, A.before, B.begin, B.before |
| ProxyProperties.TwoAspectsUnwindOnException | FrameWork/src/main/java/cn/egret/proxy/AspectProxy.java:40-46 | on a target Exception e: ... target, B.error(e), B.end, A.error(e), A.end, and e is rethrown unchanged |
| ProxyProperties.TwoAspectsUnwindOnError | FrameWork/src/main/java/cn/egret/proxy/AspectProxy.java:40-46 | on a Throwable that is not an Exception: ... target, B.end, A.end, with no error hooks, and it propagates unchanged |
| ProxyProperties.EmptyChainInvokesTarget | FrameWork/src/main/java/cn/egret/proxy/ProxyChain.java:81-87 | with no aspects the first doProxyChain invokes the target with the stored params, and its result is returned |
| ProxyProperties.InterceptFalseSkipsBeforeAndAfter | FrameWork/src/main/java/cn/egret/proxy/AspectProxy.java:37-39 | intercept false: neither before nor after of this aspect fires; the rest of the chain runs between begin and end; its result is returned |
| ProxyProperties.AfterOnlyOnNormalReturn | FrameWork/src/main/java/cn/egret/proxy/AspectProxy.java:30-36 | after fires iff intercept returned true, before returned normally and the rest of the chain returned normally |
| ProxyProperties.ErrorOnlyOnException | FrameWork/src/main/java/cn/egret/proxy/AspectProxy.java:40-46 | error(t) fires iff doProxy throws t and t is an Exception; doProxy throws what its try block threw |
| ProxyProperties.EfficientAspect | Example/src/main/java/cn/egret/aspect/EfficientAspect.java:24-26 | the example aspect intercepts exactly the calls of methods named getUserList |
| ProxyProperties.EfficientAspectSelectsGetUserList | Example/src/main/java/cn/egret/aspect/EfficientAspect.java:24-38 | getUserList runs between begin, before and after, end; any other method runs between begin and end only |
| ClassUtil.ResourcePath | FrameWork/src/main/java/cn/egret/util/ClassUtil.java:65 | the resource path keeps every character of the package name except '.', which becomes '/' |
| ClassUtil.ClassFileName | FrameWork/src/main/java/cn/egret/util/ClassUtil.java:129-133 | a class file's class name is the file name without ".class", prefixed by packageName + "." when packageName is non-empty |
| ClassUtil.JarClassName | FrameWork/src/main/java/cn/egret/util/ClassUtil.java:91-92 | a jar entry's class name is the entry name without ".class", with every '/' replaced by '.' |
| ClassUtil.ClassLoader.constructor | FrameWork/src/main/java/cn/egret/util/ClassUtil.java:42 | a class loader over the given class path, with no class initialised yet |
| ClassUtil.ClassLoader.LoadClass | FrameWork/src/main/java/cn/egret/util/ClassUtil.java:39-48 | a missing class gives RuntimeException(ClassNotFoundException); with initialisation, a class not yet initialised is initialised once and a throwing initialiser gives ExceptionInInitializerError, and a later initialising load of that class gives NoClassDefFoundError; a load without initialisation, or of a class whose initialiser ran normally, succeeds and initialises nothing |
| ClassUtil.ClassCollector.constructor | FrameWork/src/main/java/cn/egret/util/ClassUtil.java:63 | an empty class set, nothing listed yet |
| ClassUtil.ClassCollector.DoAddClass | FrameWork/src/main/java/cn/egret/util/ClassUtil.java:161-166 | the class is loaded without initialisation and added to the set; a missing class throws and adds nothing |
| ClassUtil.ClassCollector.AddClass | FrameWork/src/main/java/cn/egret/util/ClassUtil.java:115-154 | the walk succeeds iff every class of the tree is loadable; it then adds exactly ListingClasses of the tree and lists the directories in walk order; failures are RuntimeExceptions; no class is initialised |
| ClassUtil.ClassCollector.AddEntry | FrameWork/src/main/java/cn/egret/util/ClassUtil.java:123-153 | one entry: a class file adds its class, a directory is walked as a subpackage, a rejected entry adds nothing |
| ClassUtil.ClassCollector.AddJarEntries | FrameWork/src/main/java/cn/egret/util/ClassUtil.java:84-96 | the jar branch succeeds iff every ".class" entry's class is loadable; it then adds exactly those classes |
| ClassUtil.PartOfListing | FrameWork/src/main/java/cn/egret/util/ClassUtil.java:123-153 | the classes of a prefix of a listing are among the classes of the whole listing |
| ClassUtil.JarPart | FrameWork/src/main/java/cn/egret/util/ClassUtil.java:86-96 | the classes of a prefix of the jar entries are among those of all entries |
| ClassUtil.GetClassSet | FrameWork/src/main/java/cn/egret/util/ClassUtil.java:62-107 | getClassSet succeeds iff no URL fails and every collected class is loadable; it then returns exactly PackageClasses; any failure is a RuntimeException; no class is initialised |
| ClassUtil.ScanNext | FrameWork/src/main/java/cn/egret/util/ClassUtil.java:66-101 | one iteration over the URLs extends the scanned prefix by the next URL, or fails because that URL fails or a class is missing |
| ClassUtil.ScanUrl | FrameWork/src/main/java/cn/egret/util/ClassUtil.java:67-100 | a URL scan succeeds iff the URL does not fail and its classes are loadable; it then adds exactly that URL's classes |
| ClassUtil.UrlsPart | FrameWork/src/main/java/cn/egret/util/ClassUtil.java:66-101 | the classes of a prefix of the URLs are among those of all URLs |
| ClassUtil.LoadClassInitialized | FrameWork/src/main/java/cn/egret/util/ClassUtil.java:53-55 | the one-argument loadClass initialises: a present class not yet initialised is initialised once; the exact result: the missing-class exception, ExceptionInInitializerError the first time a throwing initialiser runs, NoClassDefFoundError on every later load of that class |
| ClassUtil.ListingClassesMembership | FrameWork/src/main/java/cn/egret/util/ClassUtil.java:115-154 | a class is collected from a listing iff some entry of the listing contributes it: a union, duplicates collapsed |
| ClassUtil.ListingClasses | FrameWork/src/main/java/cn/egret/util/ClassUtil.java:115-154 | the classes collected from a directory listing in a named package all start with the package name and a "." |
| ClassUtil.EntryClasses | FrameWork/src/main/java/cn/egret/util/ClassUtil.java:123-152 | the classes one listing entry contributes in a named package all start with the package name and a "." |
| ClassUtil.ClassFileIncluded | FrameWork/src/main/java/cn/egret/util/ClassUtil.java:129-135 | every ".class" file of a listing yields its qualified class name |
| ClassUtil.SubdirectoryIncluded | FrameWork/src/main/java/cn/egret/util/ClassUtil.java:139-151 | every class of a subdirectory, in the subpackage named after it, is collected, so class files at any depth are |
| ClassUtil.RejectedEntriesIgnored | FrameWork/src/main/java/cn/egret/util/ClassUtil.java:116-122 | a file that is not a class file, or an entry that is neither file nor directory, contributes nothing |
| ClassUtil.ListedBelow | FrameWork/src/main/java/cn/egret/util/ClassUtil.java:139-143 | below a non-empty packagePath, the walk lists packagePath first and then only paths under packagePath + "/" |
| ClassUtil.SubdirsBelow | FrameWork/src/main/java/cn/egret/util/ClassUtil.java:139-143 | every subdirectory path the walk lists lies under packagePath + "/" |
| ClassUtil.JarClassesMembership | FrameWork/src/main/java/cn/egret/util/ClassUtil.java:86-96 | a class is collected from a jar iff some ".class" entry yields it, whatever package that entry is in |
| ClassUtil.JarClasses | FrameWork/src/main/java/cn/egret/util/ClassUtil.java:86-96 | the class names of a jar's entries contain no "/" |
| ClassUtil.UrlsClassesMembership | FrameWork/src/main/java/cn/egret/util/ClassUtil.java:66-101 | a class of the package is one contributed by some URL of its resource path |
| ClassUtil.UrlClasses | FrameWork/src/main/java/cn/egret/util/ClassUtil.java:68-100 | a URL whose scan fails contributes no class; a jar URL's class names contain no "/" |
| ClassUtil.PackageClasses | FrameWork/src/main/java/cn/egret/util/ClassUtil.java:62-107 | the classes getClassSet collects: none for a package without resource URLs |
| ClassUtil.UserControllerNames | FrameWork/src/main/java/cn/egret/util/ClassUtil.java:129-133 | "UserController.class" in package "cn.egret.controller" is cn.egret.controller.UserController, and in the default package UserController; "cn.egret" is at "cn/egret" |
| ClassUtil.JarEntryName | FrameWork/src/main/java/cn/egret/util/ClassUtil.java:92 | the jar entry cn/egret/A.class is class cn.egret.A |
| AopHelper.TargetClassSet | FrameWork/src/main/java/cn/egret/helper/AopHelper.java:98-112 | pkg and cls given: exactly {pkg.cls} when the class exists and its initialiser does not throw, an Exception (caught by the static block) when it does not exist, and ExceptionInInitializerError or NoClassDefFoundError (not caught) when its initialiser throws; only pkg: exactly the classes scanned under pkg, or an Exception when the scan fails; pkg empty: the empty set, whatever cls is |
| AopHelper.SelectorInitializes | FrameWork/src/main/java/cn/egret/helper/AopHelper.java:104-106 | resolving a selector initialises at most one class: pkg.cls, when it exists and has not been initialised |
| AopHelper.CreateTargetClassSet | FrameWork/src/main/java/cn/egret/helper/AopHelper.java:98-112 | run against the class loader, createTargetClassSet ends as TargetClassSet of the loader's state says, and initialises exactly what SelectorInitializes names |
| AopHelper.SelectionStable | FrameWork/src/main/java/cn/egret/helper/AopHelper.java:71-81 | a selector's outcome is the same at any point of the loop, since the earlier selectors only initialise classes whose initialisers do not throw |
| AopHelper.DeclaredAspects | FrameWork/src/main/java/cn/egret/helper/AopHelper.java:69-80 | an aspect class is declared iff it extends AspectProxy and carries @Aspect |
| AopHelper.CreateAspectMap | FrameWork/src/main/java/cn/egret/helper/AopHelper.java:55-93 | it completes iff every selector resolves, against the loader's state at the start; then its keys are the declared aspects plus the transaction aspect, the transaction aspect maps to every @Service class and each declared aspect maps to its selector's targets; when it throws, what it throws is what some declared aspect's selector throws; it only appends single-class selector targets to the initialised classes |
| AopHelper.InitializedGrows | FrameWork/src/main/java/cn/egret/helper/AopHelper.java:71-81 | one selector keeps the loop's facts: the classes initialised before stay a prefix, and every new one is a single-class selector target |
| AopHelper.InvertedCharacterization | FrameWork/src/main/java/cn/egret/helper/AopHelper.java:117-143 | a class is a key of the inversion iff some aspect targets it; its entry is exactly the aspects targeting it, and never empty |
| AopHelper.Inverted | FrameWork/src/main/java/cn/egret/helper/AopHelper.java:117-143 | the inversion of the aspect map: every target's entry is a non-empty set of aspect classes of the map |
| AopHelper.AppendInstance | FrameWork/src/main/java/cn/egret/helper/AopHelper.java:130-139 | appending an instance of a new aspect class keeps every class in a list once and adds exactly that class |
| AopHelper.ProperListsDistinct | FrameWork/src/main/java/cn/egret/helper/AopHelper.java:126-128 | in lists built one instance per (aspect, target) pair, no instance is shared between two targets or repeated in a list |
| AopHelper.InvertsAll | FrameWork/src/main/java/cn/egret/helper/AopHelper.java:117-143 | once every aspect is processed, the target map has the inversion's keys, and each list holds the inversion's aspect classes |
| AopHelper.CreateTargetMap | FrameWork/src/main/java/cn/egret/helper/AopHelper.java:117-143 | it succeeds iff every aspect with targets can be instantiated; the keys are exactly the targeted classes; each list holds one instance of each aspect targeting that class; instances are distinct |
| AopHelper.InvertAspectMap | FrameWork/src/main/java/cn/egret/helper/AopHelper.java:120-141 | the loops over aspects and their targets succeed iff each aspect can be instantiated, and then invert the whole map |
| AopHelper.InstantiateStep | FrameWork/src/main/java/cn/egret/helper/AopHelper.java:128 | instantiability of the processed aspects extends by one more aspect that can be instantiated, or has no targets |
| AopHelper.CannotInstantiate | FrameWork/src/main/java/cn/egret/helper/AopHelper.java:128 | one aspect with targets that newInstance cannot create makes the whole inversion fail |
| AopHelper.StartAspect | FrameWork/src/main/java/cn/egret/helper/AopHelper.java:120-124 | starting a new aspect keeps the inversion invariant of the aspects done |
| AopHelper.AddAspect | FrameWork/src/main/java/cn/egret/helper/AopHelper.java:126-140 | the inner loop of one aspect extends the inversion invariant by that aspect |
| AopHelper.AddOne | FrameWork/src/main/java/cn/egret/helper/AopHelper.java:128-139 | adding one instance for one target (appending, or a new list) keeps the inversion invariant |
| AopHelper.FinishAspect | FrameWork/src/main/java/cn/egret/helper/AopHelper.java:126-140 | an aspect whose targets are all handled counts as done |
| AopHelper.BeanContainer.constructor | FrameWork/src/main/java/cn/egret/helper/AopHelper.java:45 | a bean container holding the given beans |
| AopHelper.BeanContainer.SetBean | FrameWork/src/main/java/cn/egret/helper/AopHelper.java:45 | setBean replaces the entry of that class only |
| AopHelper.Weave | FrameWork/src/main/java/cn/egret/helper/AopHelper.java:27-50 | only replaced targets change; each replaced bean is a proxy of its class over exactly the aspects targeting it, each once; nothing is replaced if a selector or instantiation fails; an Error from a selector's class initialisation escapes the static block with no bean replaced, and, with newInstance and createProxy taken to throw only Exceptions, no other Error escapes; with no failures every targeted bean is replaced |
| AopHelper.AspectMap | FrameWork/src/main/java/cn/egret/helper/AopHelper.java:55-62 | the aspect map of a loader state whose selectors all resolve: keyed by the declared aspects and the transaction aspect |
| AopHelper.ReplaceBeans | FrameWork/src/main/java/cn/egret/helper/AopHelper.java:35-46 | setBean is called only for target-map keys, with their lists; other beans are unchanged; replacements made before a failing createProxy remain; with no failure all keys are replaced |
| AopHelper.AspectMapIs | FrameWork/src/main/java/cn/egret/helper/AopHelper.java:55-62 | a map with createAspectMap's keys and entries is the aspect map |
| AopHelper.ServicesGetTransactionAspect | FrameWork/src/main/java/cn/egret/helper/AopHelper.java:90-93 | every @Service class is woven with the transaction aspect, independent of the declared aspects |
| AopHelper.EfficientAspectTargetsUserController | Example/src/main/java/cn/egret/aspect/EfficientAspect.java:14 | EfficientAspect's selector targets exactly cn.egret.controller.UserController while its initialiser does not throw, and otherwise ends weaving with ExceptionInInitializerError the first time and NoClassDefFoundError after |
| Bean.RequestMethod.ToString | FrameWork/src/main/java/cn/egret/annotation/RequestMethod.java:13 | a verb's toString is its constant name, upper-case ASCII letters |
| Bean.ToStringInjective | FrameWork/src/main/java/cn/egret/annotation/RequestMethod.java:13 | two verbs have the same name iff they are the same verb |
| Bean.UpperAsciiKeepsVerbName | FrameWork/src/main/java/cn/egret/DispatcherServlet.java:94 | upper-casing leaves every verb name as it is, so an upper-cased verb can match a route key |
| Bean.Equals | FrameWork/src/main/java/cn/egret/bean/Request.java:45-54 | equals holds iff the argument is a Request whose path and verb equal this one's, the identity shortcut included |
| Bean.EqualsIsValueEquality | FrameWork/src/main/java/cn/egret/bean/Request.java:45-54 | two Request objects are equal iff they hold the same value |
| Bean.EqualsReflexive | FrameWork/src/main/java/cn/egret/bean/Request.java:46-48 | a Request equals itself and every Request with the same fields |
| Bean.EqualsSymmetric | FrameWork/src/main/java/cn/egret/bean/Request.java:53 | a.equals(b) == b.equals(a) |
| Bean.EqualsTransitive | FrameWork/src/main/java/cn/egret/bean/Request.java:45-54 | equals is transitive |
| Bean.NonRequestNeverEqual | FrameWork/src/main/java/cn/egret/bean/Request.java:49-51 | an object of another class, or null, is never equal |
| Bean.RequestHashCode | FrameWork/src/main/java/cn/egret/bean/Request.java:32-37 | hashCode is a 32-bit int |
| Bean.RequestHashCodeClosedForm | FrameWork/src/main/java/cn/egret/bean/Request.java:32-37 | hashCode is 31 * (31 * 17 + h(verb)) + h(path), with h the string polynomial and one 32-bit wrap at the end |
| Bean.InnerHashCongruent | FrameWork/src/main/java/cn/egret/bean/Request.java:34 | the first wrapped step is congruent to 31 * 17 + h(verb) modulo 2^32 |
| Bean.Congruent31 | FrameWork/src/main/java/cn/egret/bean/Request.java:34-35 | a step result = 31 * result + h keeps congruence modulo 2^32 |
| Bean.EqualRequestsHashEqually | FrameWork/src/main/java/cn/egret/bean/Request.java:32-54 | equal requests have equal hash codes, as HashMap requires of its keys |
| Bean.Param.GetParamMap | FrameWork/src/main/java/cn/egret/bean/Param.java:22-24 | getParamMap returns the map the Param holds |
| Bean.NewParam | FrameWork/src/main/java/cn/egret/bean/Param.java:15-16 | a Param built without a map holds null and is empty |
| Bean.NewParamOf | FrameWork/src/main/java/cn/egret/bean/Param.java:18-20 | a Param built from a map returns exactly that map, and is empty iff the map has no entries |
| ControllerHelper.RouteOf | FrameWork/src/main/java/cn/egret/helper/ControllerHelper.java:42-50 | an annotated method's route: key (verb name, value), handler (its class, itself) |
| ControllerHelper.MethodRoutes | FrameWork/src/main/java/cn/egret/helper/ControllerHelper.java:39-54 | the puts for a class's methods: at most one per method, each with a handler of that class |
| ControllerHelper.Routes | FrameWork/src/main/java/cn/egret/helper/ControllerHelper.java:34-55 | the puts for all controller classes, each with a handler of one of them |
| ControllerHelper.PutAll | FrameWork/src/main/java/cn/egret/helper/ControllerHelper.java:52 | every entry the puts leave is one of the puts made |
| ControllerHelper.RouteTable | FrameWork/src/main/java/cn/egret/helper/ControllerHelper.java:28-58 | REQUEST_MAP: every handler in it names one of the controller classes |
| ControllerHelper.PutAllLastWins | FrameWork/src/main/java/cn/egret/helper/ControllerHelper.java:49-52 | after a sequence of puts a key is present iff some put used it, and it maps to the handler of the last such put |
| ControllerHelper.MethodRoutesMembership | FrameWork/src/main/java/cn/egret/helper/ControllerHelper.java:36-53 | a class puts a route iff one of its declared methods carries @RequestMapping and yields that route |
| ControllerHelper.RoutesMembership | FrameWork/src/main/java/cn/egret/helper/ControllerHelper.java:32-56 | a route is put iff some controller class declares it |
| ControllerHelper.RouteTableCharacterization | FrameWork/src/main/java/cn/egret/helper/ControllerHelper.java:30-58 | a key is in REQUEST_MAP iff some controller method declares it, and its handler is one such declaration |
| ControllerHelper.LastIndexOfKey | FrameWork/src/main/java/cn/egret/helper/ControllerHelper.java:52 | the position of the last put of a key |
| ControllerHelper.UnmappedMethodsIgnored | FrameWork/src/main/java/cn/egret/helper/ControllerHelper.java:41 | a method without @RequestMapping contributes no route |
| ControllerHelper.EmptyControllerSetEmptyTable | FrameWork/src/main/java/cn/egret/helper/ControllerHelper.java:33 | no controller classes, no routes |
| ControllerHelper.LaterDeclarationWins | FrameWork/src/main/java/cn/egret/helper/ControllerHelper.java:34-55 | a mapped method of any controller, with no later method of that controller and no later controller declaring its verb and path, is that key's handler, whatever was declared before it |
| ControllerHelper.SplitAtDeclaration | FrameWork/src/main/java/cn/egret/helper/ControllerHelper.java:34-55 | the puts of the nested loops, split at one method's put: those of the earlier classes and methods, that put, those of the later methods and classes |
| ControllerHelper.PutAllLastOfKey | FrameWork/src/main/java/cn/egret/helper/ControllerHelper.java:52 | a put followed by no put with its key leaves that key mapped to its handler |
| ControllerHelper.RoutesAppend | FrameWork/src/main/java/cn/egret/helper/ControllerHelper.java:34-55 | the puts for a list of controller classes are those of its parts, in order |
| ControllerHelper.MethodRoutesAppend | FrameWork/src/main/java/cn/egret/helper/ControllerHelper.java:39-54 | the puts for a list of methods are those of its parts, in order |
| ControllerHelper.BuildRequestMap | FrameWork/src/main/java/cn/egret/helper/ControllerHelper.java:30-58 | the nested loops of the static block build exactly RouteTable |
| ControllerHelper.PutAllSnoc | FrameWork/src/main/java/cn/egret/helper/ControllerHelper.java:52 | one more put updates that key and nothing else |
| ControllerHelper.RequestMapHolder.constructor | FrameWork/src/main/java/cn/egret/helper/ControllerHelper.java:28-58 | REQUEST_MAP after the static initialiser is RouteTable of the controller classes |
| ControllerHelper.RequestMapHolder.GetHandler | FrameWork/src/main/java/cn/egret/helper/ControllerHelper.java:63-66 | getHandler returns the stored handler iff a key equal in verb and path is present, null otherwise; the table is only read |
| ControllerHelper.UserControllerRoutes | Example/src/main/java/cn/egret/controller/UserController.java:36-57 | the example controller's table is exactly GET /userList, GET /userInfo, GET /userEdit to their methods; POST /userList misses |
| DispatcherServlet.NormalizePath | FrameWork/src/main/java/cn/egret/DispatcherServlet.java:104-110 | the path is unchanged, or becomes "/" followed by a single segment without '/' |
| DispatcherServlet.SingleSegmentUnchanged | FrameWork/src/main/java/cn/egret/DispatcherServlet.java:107-110 | "/segment" is left as it is |
| DispatcherServlet.ContextSegmentDropped | FrameWork/src/main/java/cn/egret/DispatcherServlet.java:106-110 | "/context/segment" becomes "/segment" |
| DispatcherServlet.NormalizePathIdempotent | FrameWork/src/main/java/cn/egret/DispatcherServlet.java:107-110 | normalising twice is normalising once |
| DispatcherServlet.RootDeploymentPath | FrameWork/src/main/java/cn/egret/DispatcherServlet.java:106 | "/userList" stays "/userList" |
| DispatcherServlet.ContextDeploymentPath | FrameWork/src/main/java/cn/egret/DispatcherServlet.java:106 | "/ctx/userList" becomes "/userList" |
| DispatcherServlet.RouteKey | FrameWork/src/main/java/cn/egret/DispatcherServlet.java:94-113 | a null path info throws NullPointerException; otherwise the lookup key is (upper-cased verb, normalised path) |
| DispatcherServlet.ChooseInvocation | FrameWork/src/main/java/cn/egret/DispatcherServlet.java:127-134 | the handler is invoked without argument iff the Param is null or empty, and otherwise with the Param |
| DispatcherServlet.ViewDirective | FrameWork/src/main/java/cn/egret/DispatcherServlet.java:150-161 | an empty view path does nothing; a path starting with "/" redirects to contextPath + path; any other forwards to jspPath + path |
| DispatcherServlet.DataDirective | FrameWork/src/main/java/cn/egret/DispatcherServlet.java:169-170 | a null model writes nothing; otherwise the model is written as JSON |
| DispatcherServlet.ResultResponse | FrameWork/src/main/java/cn/egret/DispatcherServlet.java:137-141 | a result that is neither View nor Data produces nothing; attributes are set only by a forwarded View, and are its model |
| DispatcherServlet.Dispatch | FrameWork/src/main/java/cn/egret/DispatcherServlet.java:92-141 | a null path info throws NullPointerException; a response naming no invocation outputs nothing and sets nothing; any other failure is what a handler's call throws |
| DispatcherServlet.NullPathInfoThrows | FrameWork/src/main/java/cn/egret/DispatcherServlet.java:104-107 | a request without path info ends in NullPointerException |
| DispatcherServlet.RoutingDecidesInvocation | FrameWork/src/main/java/cn/egret/DispatcherServlet.java:113-134 | a routing miss invokes nothing and outputs nothing; a hit invokes the handler as ChooseInvocation says, and when that call throws, service throws the same exception |
| DispatcherServlet.VerbCaseIgnored | FrameWork/src/main/java/cn/egret/DispatcherServlet.java:94 | the verb's case does not change the dispatch |
| DispatcherServlet.LowerCaseVerbMatches | FrameWork/src/main/java/cn/egret/DispatcherServlet.java:94 | "get" upper-cases to the name of GET |
| DispatcherServlet.ContextPathIgnored | FrameWork/src/main/java/cn/egret/DispatcherServlet.java:106-110 | "/context/segment" dispatches as "/segment" |
| DispatcherServlet.UserListRequest | FrameWork/src/main/java/cn/egret/DispatcherServlet.java:92-134 | "get /ctx/userList" on the example table invokes getUserList without argument when the Param is null or empty, and service throws exactly when that call throws |
| DispatcherServlet.GetUserListKey | FrameWork/src/main/java/cn/egret/DispatcherServlet.java:94-110 | the key of "get /ctx/userList" is (GET, /userList) |
| DispatcherServlet.UserListPostMisses | FrameWork/src/main/java/cn/egret/DispatcherServlet.java:113-114 | POST /userList on the example table invokes nothing and outputs nothing |
| DispatcherServlet.PostUserListKey | FrameWork/src/main/java/cn/egret/DispatcherServlet.java:94-110 | the key of "POST /userList" is (POST, /userList) |
| DispatcherServlet.HttpRequest.constructor | FrameWork/src/main/java/cn/egret/DispatcherServlet.java:92 | a request with the given verb, path info and context path, and no attributes |
| DispatcherServlet.CopyModel | FrameWork/src/main/java/cn/egret/DispatcherServlet.java:156-159 | after the loop every model entry is a request attribute, overriding one of the same name; other attributes are kept |
| DispatcherServlet.HandleViewResult | FrameWork/src/main/java/cn/egret/DispatcherServlet.java:148-163 | the directive is ViewDirective's; the model is copied into the attributes iff the view forwards |
| DispatcherServlet.Service | FrameWork/src/main/java/cn/egret/DispatcherServlet.java:92-143 | service's outcome is Dispatch of the route table and the request, including an exception from the controller call; the attributes change only by a forwarded View's model, and not at all when service throws |
| HelperLoader.LoadAll | FrameWork/src/main/java/cn/egret/HelperLoader.java:23-25 | loading a list of classes keeps the classes already initialised, in their order, and appends at most one newly initialised class per name loaded; any throwable, Exception or Error, ends the loading |
| HelperLoader.Init | FrameWork/src/main/java/cn/egret/HelperLoader.java:15-26 | init's outcome and the classes it initialises are Startup: a helper the class path cannot resolve makes the class-literal array throw NoClassDefFoundError with nothing initialised; otherwise LoadAll of the five helpers in order, stopping at the first throwable: a throwing initialiser, or a helper whose initialiser threw in an earlier init |
| HelperLoader.FirstMissing | FrameWork/src/main/java/cn/egret/HelperLoader.java:16-22 | the position of the first class the class path cannot resolve: every class before it resolves, and it does not |
| HelperLoader.Startup | FrameWork/src/main/java/cn/egret/HelperLoader.java:15-26 | a missing helper gives NoClassDefFoundError for a missing class and initialises nothing; with every helper present, init is LoadAll of the helpers |
| HelperLoader.StartupRunsAllPhases | FrameWork/src/main/java/cn/egret/HelperLoader.java:23-25 | distinct, present, not yet initialised classes with initialisers that do not throw are all initialised, in list order |
| HelperLoader.HelpersDistinct | FrameWork/src/main/java/cn/egret/HelperLoader.java:16-22 | the five helpers are different classes |
| HelperLoader.FreshStartupOrder | FrameWork/src/main/java/cn/egret/HelperLoader.java:16-25 | on a fresh loader init succeeds and the static blocks run ClassHelper, BeanHelper, AopHelper, IocHelper, ControllerHelper: scanning first, proxies before injection |
| HelperLoader.FailingPhaseStopsStartup | FrameWork/src/main/java/cn/egret/HelperLoader.java:23-25 | the first helper whose initialiser throws ends init with its error; it has been initialised, the helpers after it have not |
| HelperLoader.RerunStopsAtBrokenPhase | FrameWork/src/main/java/cn/egret/HelperLoader.java:23-25 | running init again after a helper's initialiser threw: the helpers before it load without effect and the broken one fails with NoClassDefFoundError, initialising nothing |
| HelperLoader.MissingHelperInitializesNothing | FrameWork/src/main/java/cn/egret/HelperLoader.java:16-22 | the first helper missing from the class path ends init with its NoClassDefFoundError before any static initialiser runs |
| HelperLoader.MissingIocHelper | FrameWork/src/main/java/cn/egret/HelperLoader.java:16-22 | with only IocHelper missing, init fails at once and ClassHelper, BeanHelper and AopHelper are not initialised either |
| HelperLoader.BrokenBeanHelperStaysBroken | FrameWork/src/main/java/cn/egret/HelperLoader.java:15-26 | with a throwing BeanHelper initialiser the first init fails with ExceptionInInitializerError after initialising ClassHelper and BeanHelper, and a second init fails with NoClassDefFoundError |

## Left out

- Servlet I/O is not performed. `sendRedirect`, `forward`, the response writer and fastjson serialisation become a `Directive` value (NoOutput, Redirect, Forward, WriteJson). The JSON text of a Data model is given as the model itself.
- `DispatcherServlet.init` and `registerServlet` (servlet registration at deployment) are not modelled: they are container plumbing.
- `RequestHelper.createParam`'s result is a parameter of `Service`.
- Invoking the controller method (`ReflectionUtil.invokeMethod`) is a function parameter from the invocation to its result or the exception it throws. `BeanHelper.getBean` of the controller, and what it throws, is subsumed in it.
- `getDeclaredMethods`, `isAnnotationPresent` and `getAnnotation` are given as explicit descriptors (`ControllerClass`, `MethodDecl`, `Application`).
- `Class.forName`, `newInstance` and CGLIB `ProxyFactory.createProxy` are not modelled as reflection:
  - a class loader has a set of loadable classes;
  - a set of instantiable classes;
  - a set of classes proxy creation fails for.
  - A proxy is a `Proxied(target, aspects)` bean.
  - AopHelper's `Class.forName(pkg + "." + cls)` is the class loader's initialising load, whose ClassNotFoundException comes wrapped in a RuntimeException. The static block catches both alike, and the model records only that an Exception was caught (`CaughtException`), not which one.
  - For `HelperLoader`, an Error escaping AopHelper's static block means AopHelper is among the classes whose initialiser throws. The model does not derive that set from `Weave`'s outcome: it is an input of the class loader.
  - Which Error `HelperLoader` sees for it is labelled `InitializerError(AopHelper)`. In Java an Error thrown by a static block propagates as it is (section 12.4.2 of the Java Language Specification): HelperLoader.init sees the selector class's own ExceptionInInitializerError or NoClassDefFoundError that `Weave` reports. Only a later initialising load of AopHelper gives a NoClassDefFoundError for AopHelper itself.
- `MethodProxy.invokeSuper` is a function parameter returning a value or a throwable.
- ClassHelper, BeanHelper, IocHelper, TransactionProxy, ConfigHelper and View are not part of this model:
  - BeanHelper's container is a class over a map;
  - the jsp path is a parameter;
  - a View is a path and a model map;
  - the transaction aspect is a class name mapped to the @Service classes.
  - `HelperLoader` models only the order and error propagation of their static initialisers, not what they do.
- The hooks begin, error and end of an aspect are assumed to complete normally. What a hook does is observed only through the trace.
- Logging is left out throughout. So is EfficientAspect's clock-based timing.
- Concurrency is left out: aspect instances shared across calls are never raced on.
- HashMap and HashSet iteration orders are unspecified:
  - loops over sets and maps pick an arbitrary element;
  - contracts are stated independently of the order where the source is;
  - the controller class set is given as a sequence in its iteration order, which decides which equal route wins;
  - the order of the aspects in a target's list is not claimed.
- Aspect instances are identified by their (aspect class, target class) pair. The model does not track object identity beyond that.
- The real file system and jar files are values:
  - a directory tree for what `listFiles` returns;
  - a list of entry names;
  - the URLs `getResources` enumerates.
  - An IOException from `getResources` itself is not modelled.
  - A null `listFiles` result is modelled only for the directory of a "file" URL, not for a subdirectory.
- AopHelper.Weave: `newInstance` of an aspect class (AopHelper.java:128) and `createProxy` are taken to throw only Exceptions and to initialise no class. In Java the first `newInstance` of an aspect class runs its static initialiser (EfficientAspect's LOGGER, say), and an Error from it would escape the static block as a selector's does. So Weave's "no selector Error, no escape" and its "only selector classes are initialised" hold of the model under that abstraction, not of every Java run. The aspect classes and TransactionProxy are not recorded as initialised.
- AopHelper.Weave: when several selectors would throw, which one ends the static block depends on the set's iteration order. The model promises only that it is one of them, and that an Error escapes whenever a selector throws an Error and none throws an Exception.
- AopHelper.CreateAspectMap: the same order caveat as Weave applies to which selector's throwable it returns.
- ClassUtil.GetClassSet: on failure it promises only that a RuntimeException is thrown. It does not promise which cause is wrapped.
- setAttribute with a null model value, and a View with a null path, are not modelled: a View path is a string.
- Handler's controller method is given by name (`Handler(controllerClass, controllerMethod)`), not as a `Method` object.
- `String.toUpperCase` is modelled on ASCII letters only. `String.hashCode` is taken over the string's `char`s as given. Dafny's char is a Unicode scalar value, so UTF-16 surrogate pairs are not split.
- AspectProxy.doProxy follows the code rather than the framework's description: the `catch` wraps both branches of the `if`. So `error` also fires when intercept returned false and the rest of the chain threw an Exception.
- TestIOC and the example UserService are not modelled. The example UserController and EfficientAspect appear only as fixtures.
