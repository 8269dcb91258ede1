/**
 * ClassUtil: loading a class by name, and collecting the names of the classes of a package
 * from the class path's resources: a directory tree walked recursively (addClass) and the
 * entries of a jar file.  The file system, jar files and the JVM's class loader are given as
 * values: a directory tree, a list of jar entry names and the set of loadable class names.
 */
module ClassUtil {
  import opened Base
  import opened JavaString

  /** A fully-qualified class name such as "cn.egret.controller.UserController". */
  type ClassName = string

  /** An entry of a directory listing. */
  datatype FsEntry =
    | RegularFile(name: string)
    | Directory(name: string, listing: seq<FsEntry>)
    | OtherEntry(name: string)  // neither a regular file nor a directory

  /** The FileFilter of addClass: regular files ending in ".class", and directories. */
  predicate Accepted(e: FsEntry) {
    (e.RegularFile? && EndsWith(e.name, ".class")) || e.Directory?
  }

  /** What opening a "jar" URL's connection yields. */
  datatype JarAccess =
    | ConnectionFails               // openConnection or getJarFile throws an IOException
    | NoConnection                  // the connection is null
    | NoJarFile                     // the connection gives a null jar file
    | JarEntries(names: seq<string>) // the names of the jar's entries, in enumeration order

  /**
   * A resource URL: its protocol and raw path; what listFiles returns for the directory at
   * the decoded path of a "file" URL (None for null); and what a "jar" URL's connection yields.
   */
  datatype Url = Url(protocol: string, path: string, listing: Option<seq<FsEntry>>, jar: JarAccess)

  /**
   * What the context class loader can see: the classes it can load, and for each resource
   * path the URLs getResources enumerates (a null element stands for a null URL).
   */
  datatype Classpath = Classpath(available: set<ClassName>, resources: map<string, seq<Option<Url>>>)

  /** getResources(path): the URLs of the resource, none when it does not exist. */
  function Resources(cp: Classpath, path: string): seq<Option<Url>> {
    if path in cp.resources then cp.resources[path] else []
  }

  /** The resource path of a package: every '.' becomes '/'. */
  function ResourcePath(packageName: string): (path: string)
    ensures |path| == |packageName| && '.' !in path
    ensures forall k | 0 <= k < |packageName| && packageName[k] != '.' :: path[k] == packageName[k]
  {
    ReplaceChar(packageName, '.', '/')
  }

  /** A name joined to a prefix with a separator, the prefix dropped when empty. */
  function Join2(prefix: string, sep: char, name: string): string {
    if prefix != "" then prefix + [sep] + name else name
  }

  /** The class name a class file yields in package packageName: the file name up to its last '.'. */
  function ClassFileName(fileName: string, packageName: string): (className: ClassName)
    requires EndsWith(fileName, ".class")
    ensures className == Join2(packageName, '.', fileName[..|fileName| - 6])
  {
    assert fileName[|fileName| - 6] == '.';
    var i := LastIndexOf(fileName, '.');
    assert i == |fileName| - 6 by {
      assert fileName[|fileName| - 6..] == ".class";
      assert forall k | |fileName| - 6 < k < |fileName| :: fileName[k] != '.';
    }
    Join2(packageName, '.', fileName[..i])
  }

  /** The class name a jar entry yields: the entry name up to its last '.', each '/' replaced by '.'. */
  function JarClassName(entryName: string): (className: ClassName)
    requires EndsWith(entryName, ".class")
    ensures |className| == |entryName| - 6
    ensures forall k | 0 <= k < |className| :: className[k] == if entryName[k] == '/' then '.' else entryName[k]
  {
    assert entryName[|entryName| - 6..] == ".class";
    var i := LastIndexOf(entryName, '.');
    assert i == |entryName| - 6 by {
      assert entryName[|entryName| - 6] == '.';
      assert forall k | |entryName| - 6 < k < |entryName| :: entryName[k] != '.';
    }
    ReplaceChar(entryName[..i], '/', '.')
  }

  /**
   * The class names addClass collects from a directory listing in package packageName:
   * every accepted class file at any depth, each subdirectory read as a subpackage.
   */
  function ListingClasses(listing: seq<FsEntry>, packageName: string): (classes: set<ClassName>)
    ensures packageName != "" ==> forall c | c in classes :: StartsWith(c, packageName + ".")
    decreases listing
  {
    if |listing| == 0 then {}
    else ListingClasses(listing[..|listing| - 1], packageName) + EntryClasses(listing[|listing| - 1], packageName)
  }

  /** The class names one entry of a listing contributes. */
  function EntryClasses(e: FsEntry, packageName: string): (classes: set<ClassName>)
    ensures packageName != "" ==> forall c | c in classes :: StartsWith(c, packageName + ".")
    decreases e
  {
    if !Accepted(e) then {}
    else if e.RegularFile? then {ClassFileName(e.name, packageName)}
    else ListingClasses(e.listing, Join2(packageName, '.', e.name))
  }

  /** The directories addClass lists, in order, starting with the one at packagePath. */
  function ListedPaths(listing: seq<FsEntry>, packagePath: string): seq<string>
    decreases listing, 1
  {
    [packagePath] + SubdirPaths(listing, packagePath)
  }

  /** The directories listed below packagePath while walking `listing`. */
  function SubdirPaths(listing: seq<FsEntry>, packagePath: string): seq<string>
    decreases listing, 0
  {
    if |listing| == 0 then []
    else
      var e := listing[|listing| - 1];
      SubdirPaths(listing[..|listing| - 1], packagePath) +
      (if e.Directory? then ListedPaths(e.listing, Join2(packagePath, '/', e.name)) else [])
  }

  /** The class names of the ".class" entries of a jar, whatever package they are in. */
  function JarClasses(names: seq<string>): (classes: set<ClassName>)
    ensures forall c | c in classes :: '/' !in c
  {
    if |names| == 0 then {}
    else
      var last := names[|names| - 1];
      JarClasses(names[..|names| - 1]) + (if EndsWith(last, ".class") then {JarClassName(last)} else {})
  }

  /** Whether scanning this URL fails before any class is loaded: a null listing, or an unreadable jar. */
  predicate UrlFails(u: Option<Url>) {
    u.Some? &&
      ((u.value.protocol == "file" && u.value.listing.None?) ||
       (u.value.protocol != "file" && u.value.protocol == "jar" && u.value.jar.ConnectionFails?))
  }

  /** The class names a URL contributes, when it does not fail. */
  function UrlClasses(u: Option<Url>, packageName: string): (classes: set<ClassName>)
    ensures UrlFails(u) ==> classes == {}
    ensures u.Some? && u.value.protocol == "jar" ==> forall c | c in classes :: '/' !in c
  {
    if u.None? then {}
    else if u.value.protocol == "file" then
      (if u.value.listing.Some? then ListingClasses(u.value.listing.value, packageName) else {})
    else if u.value.protocol == "jar" && u.value.jar.JarEntries? then JarClasses(u.value.jar.names)
    else {}
  }

  /** The class names of all the URLs. */
  function UrlsClasses(urls: seq<Option<Url>>, packageName: string): set<ClassName> {
    if |urls| == 0 then {} else UrlsClasses(urls[..|urls| - 1], packageName) + UrlClasses(urls[|urls| - 1], packageName)
  }

  /** The directories the walk of a "file" URL lists, starting at its decoded path. */
  function UrlListed(u: Option<Url>): seq<string> {
    if u.Some? && u.value.protocol == "file" && u.value.listing.Some? then
      ListedPaths(u.value.listing.value, DecodeSpaces(u.value.path))
    else []
  }

  /** The directories listed while scanning all the URLs, in order. */
  function UrlsListed(urls: seq<Option<Url>>): seq<string> {
    if |urls| == 0 then [] else UrlsListed(urls[..|urls| - 1]) + UrlListed(urls[|urls| - 1])
  }

  /** The URLs getClassSet enumerates for a package. */
  function PackageUrls(cp: Classpath, packageName: string): seq<Option<Url>> {
    Resources(cp, ResourcePath(packageName))
  }

  /** The class names getClassSet(packageName) collects: the union over the package's URLs. */
  function PackageClasses(cp: Classpath, packageName: string): (classes: set<ClassName>)
    ensures PackageUrls(cp, packageName) == [] ==> classes == {}
  {
    UrlsClasses(PackageUrls(cp, packageName), packageName)
  }

  /** getClassSet(packageName) returns normally: no URL fails and every collected name is loadable. */
  predicate ScanSucceeds(cp: Classpath, packageName: string) {
    var urls := PackageUrls(cp, packageName);
    (forall i | 0 <= i < |urls| :: !UrlFails(urls[i])) && PackageClasses(cp, packageName) <= cp.available
  }

  /** A snapshot of a class loader: its class path, the failing initialisers, the classes initialised. */
  datatype LoaderState = LoaderState(classpath: Classpath, failingInit: set<ClassName>, initialized: seq<ClassName>)

  /**
   * The JVM's view of the class path and of which classes have been initialised, in the
   * order their static initialisers ran.  A class in `failingInit` has a static initialiser
   * that throws.
   */
  class ClassLoader {
    const classpath: Classpath
    const failingInit: set<ClassName>
    var initialized: seq<ClassName>

    constructor (classpath: Classpath, failingInit: set<ClassName>)
      ensures this.classpath == classpath && this.failingInit == failingInit && initialized == []
    {
      this.classpath := classpath;
      this.failingInit := failingInit;
      initialized := [];
    }

    /** The loader's current state as a value. */
    function State(): LoaderState
      reads this
    {
      LoaderState(classpath, failingInit, initialized)
    }

    /**
     * loadClass(className, isInitialized): Class.forName, whose ClassNotFoundException is
     * rethrown as a RuntimeException.  With isInitialized, a class not yet initialised has
     * its static initialiser run once; an initialiser that throws surfaces as an
     * ExceptionInInitializerError, and every later initialising load of that class as a
     * NoClassDefFoundError (section 12.4.2 of the Java Language Specification).
     */
    method LoadClass(className: ClassName, isInitialized: bool) returns (r: Result<ClassName, JavaException>)
      modifies this
      ensures className !in classpath.available ==>
        r == Failure(RuntimeException(ClassNotFound(className))) && initialized == old(initialized)
      ensures className in classpath.available && !isInitialized ==>
        r == Success(className) && initialized == old(initialized)
      ensures className in classpath.available && isInitialized && className in old(initialized) ==>
        initialized == old(initialized) &&
        r == (if className in failingInit then Failure(NoClassDefFound(className)) else Success(className))
      ensures className in classpath.available && isInitialized && className !in old(initialized) ==>
        initialized == old(initialized) + [className] &&
        r == (if className in failingInit then Failure(InitializerError(className)) else Success(className))
    {
      if className !in classpath.available {
        return Failure(RuntimeException(ClassNotFound(className)));
      }
      if isInitialized && className !in initialized {
        initialized := initialized + [className];
        if className in failingInit {
          return Failure(InitializerError(className));
        }
      } else if isInitialized && className in failingInit {
        return Failure(NoClassDefFound(className));
      }
      r := Success(className);
    }
  }

  /** The set a getClassSet call fills, and the directories it has listed. */
  class ClassCollector {
    const loader: ClassLoader
    var classSet: set<ClassName>
    var listed: seq<string>

    constructor (loader: ClassLoader)
      ensures this.loader == loader && classSet == {} && listed == []
    {
      this.loader := loader;
      classSet := {};
      listed := [];
    }

    /** doAddClass: load the class without initialising it and add it to the set. */
    method DoAddClass(className: ClassName) returns (r: Result<(), JavaException>)
      modifies this, loader
      ensures loader.initialized == old(loader.initialized) && listed == old(listed)
      ensures className in loader.classpath.available ==> r.Success? && classSet == old(classSet) + {className}
      ensures className !in loader.classpath.available ==>
        r == Failure(RuntimeException(ClassNotFound(className))) && classSet == old(classSet)
    {
      var cls := loader.LoadClass(className, false);
      if cls.Failure? {
        return Failure(cls.error);
      }
      classSet := classSet + {cls.value};
      r := Success(());
    }

    /**
     * addClass: list the directory at packagePath (whose accepted entries are `listing`), add
     * each class file's class and recurse into each subdirectory.  A class that cannot be
     * loaded ends the walk with its exception.
     */
    method AddClass(listing: seq<FsEntry>, packagePath: string, packageName: string) returns (r: Result<(), JavaException>)
      modifies this, loader
      decreases listing, 1
      ensures loader.initialized == old(loader.initialized)
      ensures ListingClasses(listing, packageName) <= loader.classpath.available <==> r.Success?
      ensures r.Success? ==> classSet == old(classSet) + ListingClasses(listing, packageName)
      ensures r.Success? ==> listed == old(listed) + ListedPaths(listing, packagePath)
      ensures r.Failure? ==> r.error.RuntimeException?
    {
      listed := listed + [packagePath];
      r := Success(());
      var i := 0;
      while i < |listing| && r.Success?
        invariant 0 <= i <= |listing|
        invariant loader.initialized == old(loader.initialized)
        invariant r.Success? ==> ListingClasses(listing[..i], packageName) <= loader.classpath.available
        invariant r.Success? ==> classSet == old(classSet) + ListingClasses(listing[..i], packageName)
        invariant r.Success? ==> listed == old(listed) + [packagePath] + SubdirPaths(listing[..i], packagePath)
        invariant r.Failure? ==> r.error.RuntimeException? && !(ListingClasses(listing[..i], packageName) <= loader.classpath.available)
      {
        var e := listing[i];
        assert listing[..i + 1][..i] == listing[..i];
        assert ListingClasses(listing[..i + 1], packageName) ==
          ListingClasses(listing[..i], packageName) + EntryClasses(e, packageName);
        assert SubdirPaths(listing[..i + 1], packagePath) == SubdirPaths(listing[..i], packagePath) +
          (if e.Directory? then ListedPaths(e.listing, Join2(packagePath, '/', e.name)) else []);
        r := AddEntry(e, packagePath, packageName);
        i := i + 1;
      }
      if r.Failure? {
        PartOfListing(listing, i, packageName);
      } else {
        assert listing[..i] == listing;
      }
    }

    /** One accepted entry of addClass's loop: a class file's class is added, a subdirectory walked. */
    method AddEntry(e: FsEntry, packagePath: string, packageName: string) returns (r: Result<(), JavaException>)
      modifies this, loader
      decreases e, 0
      ensures loader.initialized == old(loader.initialized)
      ensures EntryClasses(e, packageName) <= loader.classpath.available <==> r.Success?
      ensures r.Success? ==> classSet == old(classSet) + EntryClasses(e, packageName)
      ensures r.Success? ==> listed == old(listed) + (if e.Directory? then ListedPaths(e.listing, Join2(packagePath, '/', e.name)) else [])
      ensures r.Failure? ==> r.error.RuntimeException?
    {
      r := Success(());
      if Accepted(e) {
        if e.RegularFile? {
          r := DoAddClass(ClassFileName(e.name, packageName));
        } else {
          r := AddClass(e.listing, Join2(packagePath, '/', e.name), Join2(packageName, '.', e.name));
        }
      }
    }

    /** The jar branch of getClassSet: every ".class" entry's class is added, in entry order. */
    method AddJarEntries(names: seq<string>) returns (r: Result<(), JavaException>)
      modifies this, loader
      ensures loader.initialized == old(loader.initialized) && listed == old(listed)
      ensures JarClasses(names) <= loader.classpath.available <==> r.Success?
      ensures r.Success? ==> classSet == old(classSet) + JarClasses(names)
      ensures r.Failure? ==> r.error.RuntimeException?
    {
      var i := 0;
      while i < |names|
        invariant 0 <= i <= |names|
        invariant loader.initialized == old(loader.initialized) && listed == old(listed)
        invariant JarClasses(names[..i]) <= loader.classpath.available
        invariant classSet == old(classSet) + JarClasses(names[..i])
      {
        assert names[..i + 1][..i] == names[..i];
        assert JarClasses(names[..i + 1]) ==
          JarClasses(names[..i]) + (if EndsWith(names[i], ".class") then {JarClassName(names[i])} else {});
        if EndsWith(names[i], ".class") {
          var added := DoAddClass(JarClassName(names[i]));
          if added.Failure? {
            JarPart(names, i + 1);
            return added;
          }
        }
        i := i + 1;
      }
      assert names[..i] == names;
      r := Success(());
    }
  }

  /** The classes of a prefix of a listing are among the classes of the whole listing. */
  lemma {:induction false} PartOfListing(listing: seq<FsEntry>, n: nat, packageName: string)
    requires n <= |listing|
    ensures ListingClasses(listing[..n], packageName) <= ListingClasses(listing, packageName)
    decreases |listing|
  {
    if n < |listing| {
      var p := listing[..|listing| - 1];
      assert listing[..n] == p[..n];
      PartOfListing(p, n, packageName);
    } else {
      assert listing[..n] == listing;
    }
  }

  /** The classes of a prefix of a jar's entries are among the classes of all its entries. */
  lemma {:induction false} JarPart(names: seq<string>, n: nat)
    requires n <= |names|
    ensures JarClasses(names[..n]) <= JarClasses(names)
    decreases |names|
  {
    if n < |names| {
      var p := names[..|names| - 1];
      assert names[..n] == p[..n];
      JarPart(p, n);
    } else {
      assert names[..n] == names;
    }
  }

  /**
   * getClassSet(packageName): every URL of the package's resource path is scanned ("file":
   * the directory walk at the decoded path; "jar": the jar's entries; other protocols and
   * null URLs are skipped).  Any failure becomes a RuntimeException, and the set filled so far
   * is discarded.
   */
  method GetClassSet(loader: ClassLoader, packageName: string) returns (r: Result<set<ClassName>, JavaException>, listed: seq<string>)
    modifies loader
    ensures loader.initialized == old(loader.initialized)
    ensures r.Success? <==> ScanSucceeds(loader.classpath, packageName)
    ensures r.Success? ==> r.value == PackageClasses(loader.classpath, packageName)
    ensures r.Success? ==> listed == UrlsListed(PackageUrls(loader.classpath, packageName))
    ensures r.Failure? ==> r.error.RuntimeException?
  {
    var collector := new ClassCollector(loader);
    var urls := Resources(loader.classpath, ResourcePath(packageName));
    assert urls == PackageUrls(loader.classpath, packageName);
    var scanned: Result<(), JavaException> := Success(());
    var i := 0;
    while i < |urls| && scanned.Success?
      invariant 0 <= i <= |urls|
      invariant loader.initialized == old(loader.initialized) && collector.loader == loader
      invariant scanned.Success? ==> ScannedPrefix(collector.classSet, collector.listed, urls, i, packageName, loader.classpath)
      invariant scanned.Failure? ==> 0 < i && (UrlFails(urls[i - 1]) || !(UrlsClasses(urls[..i], packageName) <= loader.classpath.available))
    {
      scanned := ScanNext(collector, urls, i, packageName);
      i := i + 1;
    }
    if scanned.Failure? {
      UrlsPart(urls, i, packageName);
      r := Failure(RuntimeException(scanned.error));
    } else {
      assert urls[..i] == urls;
      r := Success(collector.classSet);
    }
    listed := collector.listed;
  }

  /** What getClassSet has gathered once the first n URLs were scanned without an exception. */
  ghost predicate ScannedPrefix(classSet: set<ClassName>, listed: seq<string>, urls: seq<Option<Url>>, n: nat,
                                packageName: string, cp: Classpath) {
    && n <= |urls|
    && (forall k | 0 <= k < n :: !UrlFails(urls[k]))
    && UrlsClasses(urls[..n], packageName) <= cp.available
    && classSet == UrlsClasses(urls[..n], packageName)
    && listed == UrlsListed(urls[..n])
  }

  /** The body of getClassSet's loop: the URL at position i scanned. */
  method ScanNext(collector: ClassCollector, urls: seq<Option<Url>>, i: nat, packageName: string)
    returns (r: Result<(), JavaException>)
    requires i < |urls|
    requires ScannedPrefix(collector.classSet, collector.listed, urls, i, packageName, collector.loader.classpath)
    modifies collector, collector.loader
    ensures collector.loader.initialized == old(collector.loader.initialized)
    ensures r.Success? ==> ScannedPrefix(collector.classSet, collector.listed, urls, i + 1, packageName, collector.loader.classpath)
    ensures r.Failure? ==> UrlFails(urls[i]) || !(UrlsClasses(urls[..i + 1], packageName) <= collector.loader.classpath.available)
  {
    assert urls[..i + 1][..i] == urls[..i];
    assert UrlsClasses(urls[..i + 1], packageName) == UrlsClasses(urls[..i], packageName) + UrlClasses(urls[i], packageName);
    assert UrlsListed(urls[..i + 1]) == UrlsListed(urls[..i]) + UrlListed(urls[i]);
    r := ScanUrl(collector, urls[i], packageName);
  }

  /** One URL of getClassSet's loop: a "file" URL's directory walk, a "jar" URL's entries, or nothing. */
  method ScanUrl(collector: ClassCollector, u: Option<Url>, packageName: string) returns (r: Result<(), JavaException>)
    modifies collector, collector.loader
    ensures collector.loader.initialized == old(collector.loader.initialized)
    ensures r.Success? <==> !UrlFails(u) && UrlClasses(u, packageName) <= collector.loader.classpath.available
    ensures r.Success? ==> collector.classSet == old(collector.classSet) + UrlClasses(u, packageName)
    ensures r.Success? ==> collector.listed == old(collector.listed) + UrlListed(u)
  {
    r := Success(());
    if u.Some? {
      var url := u.value;
      if url.protocol == "file" {
        var packagePath := DecodeSpaces(url.path);
        if url.listing.None? {
          // listFiles returned null: the for loop over it throws.
          return Failure(NullPointer);
        }
        r := collector.AddClass(url.listing.value, packagePath, packageName);
      } else if url.protocol == "jar" {
        match url.jar
        case ConnectionFails =>
          r := Failure(IOFailure);
        case NoConnection =>
        case NoJarFile =>
        case JarEntries(names) =>
          r := collector.AddJarEntries(names);
      }
    }
  }

  /** The classes of a prefix of the URLs are among the classes of all of them. */
  lemma {:induction false} UrlsPart(urls: seq<Option<Url>>, n: nat, packageName: string)
    requires n <= |urls|
    ensures UrlsClasses(urls[..n], packageName) <= UrlsClasses(urls, packageName)
    decreases |urls|
  {
    if n < |urls| {
      var p := urls[..|urls| - 1];
      assert urls[..n] == p[..n];
      UrlsPart(p, n, packageName);
    } else {
      assert urls[..n] == urls;
    }
  }

  /** loadClass(className): the one-argument form, which initialises the class. */
  method LoadClassInitialized(loader: ClassLoader, className: ClassName) returns (r: Result<ClassName, JavaException>)
    modifies loader
    ensures className in loader.classpath.available && className !in old(loader.initialized) ==>
      loader.initialized == old(loader.initialized) + [className]
    ensures className !in loader.classpath.available || className in old(loader.initialized) ==>
      loader.initialized == old(loader.initialized)
    ensures r == if className !in loader.classpath.available then Failure(RuntimeException(ClassNotFound(className)))
      else if className !in loader.failingInit then Success(className)
      else if className in old(loader.initialized) then Failure(NoClassDefFound(className))
      else Failure(InitializerError(className))
  {
    r := loader.LoadClass(className, true);
  }

  /** The directory walk collects exactly the classes of the listing's entries: a union, duplicates collapsed. */
  lemma {:induction false} ListingClassesMembership(listing: seq<FsEntry>, packageName: string, c: ClassName)
    ensures c in ListingClasses(listing, packageName) <==>
      exists i | 0 <= i < |listing| :: c in EntryClasses(listing[i], packageName)
  {
    if |listing| > 0 {
      var p := listing[..|listing| - 1];
      ListingClassesMembership(p, packageName, c);
      if c in EntryClasses(listing[|listing| - 1], packageName) {
        assert c in EntryClasses(listing[|listing| - 1], packageName);
      }
      forall i | 0 <= i < |p| ensures listing[i] == p[i] {}
    }
  }

  /** A class file in the listing yields its class, qualified with the package name. */
  lemma ClassFileIncluded(listing: seq<FsEntry>, packageName: string, fileName: string)
    requires RegularFile(fileName) in listing && EndsWith(fileName, ".class")
    ensures Join2(packageName, '.', fileName[..|fileName| - 6]) in ListingClasses(listing, packageName)
  {
    var i :| 0 <= i < |listing| && listing[i] == RegularFile(fileName);
    ListingClassesMembership(listing, packageName, ClassFileName(fileName, packageName));
  }

  /** A subdirectory's classes, in the subpackage named after it, are all included: so every class file at any depth is. */
  lemma SubdirectoryIncluded(listing: seq<FsEntry>, packageName: string, dirName: string, sub: seq<FsEntry>)
    requires Directory(dirName, sub) in listing
    ensures ListingClasses(sub, Join2(packageName, '.', dirName)) <= ListingClasses(listing, packageName)
  {
    var i :| 0 <= i < |listing| && listing[i] == Directory(dirName, sub);
    forall c | c in ListingClasses(sub, Join2(packageName, '.', dirName))
      ensures c in ListingClasses(listing, packageName)
    {
      assert c in EntryClasses(listing[i], packageName);
      ListingClassesMembership(listing, packageName, c);
    }
  }

  /** Files that are not class files, and entries that are neither files nor directories, contribute nothing. */
  lemma RejectedEntriesIgnored(listing: seq<FsEntry>, packageName: string, e: FsEntry)
    requires !Accepted(e)
    ensures ListingClasses(listing + [e], packageName) == ListingClasses(listing, packageName)
  {
    assert (listing + [e])[..|listing|] == listing;
  }

  /** Below a non-empty packagePath, every other directory addClass lists is packagePath + "/" + something. */
  lemma {:induction false} ListedBelow(listing: seq<FsEntry>, packagePath: string)
    requires packagePath != ""
    ensures var paths := ListedPaths(listing, packagePath);
      paths[0] == packagePath &&
      forall k | 1 <= k < |paths| :: StartsWith(paths[k], packagePath + "/")
    decreases listing, 1
  {
    SubdirsBelow(listing, packagePath);
  }

  lemma {:induction false} SubdirsBelow(listing: seq<FsEntry>, packagePath: string)
    requires packagePath != ""
    ensures forall k | 0 <= k < |SubdirPaths(listing, packagePath)| ::
      StartsWith(SubdirPaths(listing, packagePath)[k], packagePath + "/")
    decreases listing, 0
  {
    if |listing| > 0 {
      var e := listing[|listing| - 1];
      var front := SubdirPaths(listing[..|listing| - 1], packagePath);
      SubdirsBelow(listing[..|listing| - 1], packagePath);
      if e.Directory? {
        var q := Join2(packagePath, '/', e.name);
        ListedBelow(e.listing, q);
        var back := ListedPaths(e.listing, q);
        assert q == packagePath + "/" + e.name;
        assert StartsWith(q, packagePath + "/");
        forall k | 0 <= k < |back| ensures StartsWith(back[k], packagePath + "/") {
          if k > 0 {
            PrefixTransitive(packagePath + "/", q + "/", back[k]);
          }
        }
        var all := SubdirPaths(listing, packagePath);
        assert all == front + back;
        forall k | 0 <= k < |all| ensures StartsWith(all[k], packagePath + "/") {
          if k >= |front| {
            assert all[k] == back[k - |front|];
          } else {
            assert all[k] == front[k];
          }
        }
      }
    }
  }

  lemma PrefixTransitive(a: string, b: string, s: string)
    requires StartsWith(b, a) && StartsWith(s, b)
    ensures StartsWith(s, a)
  {
    assert s[..|a|] == s[..|b|][..|a|];
  }

  /** The jar branch collects exactly the classes of the ".class" entries, whatever their package. */
  lemma {:induction false} JarClassesMembership(names: seq<string>, c: ClassName)
    ensures c in JarClasses(names) <==>
      exists i | 0 <= i < |names| :: EndsWith(names[i], ".class") && c == JarClassName(names[i])
  {
    if |names| > 0 {
      var p := names[..|names| - 1];
      JarClassesMembership(p, c);
      forall i | 0 <= i < |p| ensures names[i] == p[i] {}
      var last := names[|names| - 1];
      if EndsWith(last, ".class") && c == JarClassName(last) {
        assert EndsWith(names[|names| - 1], ".class") && c == JarClassName(names[|names| - 1]);
      }
    }
  }

  /** The class names of a package: exactly those contributed by one of its URLs. */
  lemma {:induction false} UrlsClassesMembership(urls: seq<Option<Url>>, packageName: string, c: ClassName)
    ensures c in UrlsClasses(urls, packageName) <==>
      exists i | 0 <= i < |urls| :: c in UrlClasses(urls[i], packageName)
  {
    if |urls| > 0 {
      var p := urls[..|urls| - 1];
      UrlsClassesMembership(p, packageName, c);
      forall i | 0 <= i < |p| ensures urls[i] == p[i] {}
      if c in UrlClasses(urls[|urls| - 1], packageName) {
        assert c in UrlClasses(urls[|urls| - 1], packageName);
      }
    }
  }

  /** The naming rules on the example application's controller class file and package. */
  lemma UserControllerNames()
    ensures ClassFileName("UserController.class", "cn.egret.controller") == "cn.egret.controller.UserController"
    ensures ClassFileName("UserController.class", "") == "UserController"
    ensures ResourcePath("cn.egret") == "cn/egret"
  {
    assert "UserController.class"[..14] == "UserController";
    var p := ResourcePath("cn.egret");
    assert p[2] == '/';
  }

  /** A jar entry's directories become package segments. */
  lemma JarEntryName()
    ensures JarClassName("cn/egret/A.class") == "cn.egret.A"
  {
    var e := "cn/egret/A.class";
    var j := JarClassName(e);
    assert e[2] == '/' && e[8] == '/';
    assert j[2] == '.' && j[8] == '.';
  }
}
