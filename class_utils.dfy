/**
 * `ClassUtils`: turning resource names into class names, and the static
 * indexes that map class names to class paths and packages to class names.
 *
 * The file-system and jar scan that produces the class-path table is not
 * part of this model: the builders take that table as an argument, a
 * sequence of entries in the insertion order of its `LinkedHashMap`.
 */
module ClassUtils {
  import opened StringUtils

  const SLASH: string := "/"
  const DOT: string := "."
  const CLASS: string := ".class"

  /* ---------------------------------------------------------------------
   * Package names
   * ------------------------------------------------------------------- */

  /** `resolvePackageName`: the text before the last dot, or the whole name when it has none. */
  function ResolvePackageName(className: string): (packageName: string)
    ensures StartsWith(className, packageName)
    ensures '.' !in className ==> packageName == className
    ensures '.' in className ==>
      && |packageName| < |className|
      && className[|packageName|] == '.'
      && '.' !in className[|packageName| + 1..]
  {
    var r := SubstringBeforeLast(className, DOT);
    LastDotIsLast(className, r);
    r
  }

  /** What the contract of `SubstringBeforeLast` says about a one-dot separator, read off character by character. */
  lemma LastDotIsLast(className: string, r: string)
    requires r == SubstringBeforeLast(className, DOT)
    ensures '.' !in className ==> r == className
    ensures '.' in className ==>
      && |r| < |className|
      && className[|r|] == '.'
      && '.' !in className[|r| + 1..]
  {
    if '.' in className {
      var k :| 0 <= k < |className| && className[k] == '.';
      OccursAtChar(className, '.', k);
      assert r != className;
      OccursAtChar(className, '.', |r|);
      if '.' in className[|r| + 1..] {
        var t :| 0 <= t < |className| - |r| - 1 && className[|r| + 1..][t] == '.';
        OccursAtChar(className, '.', |r| + 1 + t);
      }
    } else {
      if r != className {
        OccursAtChar(className, '.', |r|);
      }
    }
  }

  /* ---------------------------------------------------------------------
   * Resource names to class names
   * ------------------------------------------------------------------- */

  /** The leading-dot stripping loop of `resolveClassName`, as a function. */
  function StripLeadingDots(s: string): (r: string)
    ensures !StartsWith(r, DOT)
    ensures |r| <= |s| && r == s[|s| - |r|..]
    ensures !StartsWith(s, DOT) ==> r == s
    ensures forall k :: 0 <= k < |s| - |r| ==> s[k] == '.'
    decreases |s|
  {
    if StartsWith(s, DOT) then StripLeadingDots(SubstringAfter(s, DOT)) else s
  }

  /**
   * The loop of `resolveClassName`: while the name starts with a dot, keep
   * what follows the first dot.
   */
  method DropLeadingDots(name: string) returns (className: string)
    ensures className == StripLeadingDots(name)
    ensures !StartsWith(className, DOT) && |className| <= |name|
  {
    className := name;
    while StartsWith(className, DOT)
      invariant StripLeadingDots(className) == StripLeadingDots(name)
      decreases |className|
    {
      className := SubstringAfter(className, DOT);
    }
  }

  /**
   * The class name `resolveClassName` yields for a resource name, as written:
   * never longer than the resource name, with no slash and no leading dot.
   */
  function ClassNameOf(resourceName: string): (className: string)
    ensures |className| <= |resourceName|
    ensures '/' !in className
    ensures !StartsWith(className, DOT)
  {
    var dotted := Replace(resourceName, SLASH, DOT);
    ReplaceChar(resourceName, '/', '.');
    assert '/' !in dotted;
    var before := SubstringBefore(dotted, CLASS);
    assert before == dotted[..|before|];
    StripLeadingDots(before)
  }

  /**
   * `resolveClassName(String)`: slashes become dots, everything from the
   * first `.class` on is dropped, then leading dots are stripped one by one.
   */
  method ResolveClassName(resourceName: string) returns (className: string)
    ensures className == ClassNameOf(resourceName)
    ensures '/' !in className
    ensures !StartsWith(className, DOT)
  {
    className := Replace(resourceName, SLASH, DOT);
    className := SubstringBefore(className, CLASS);
    className := DropLeadingDots(className);
  }

  /** A clean class name: no slash, and no leading dot. */
  predicate IsPlainClassName(className: string) {
    '/' !in className && !StartsWith(className, DOT)
  }

  /** The resource name a class is stored under: dots become slashes, then `.class` is appended. */
  function ResourceNameOf(className: string): (resourceName: string)
    ensures |resourceName| == |className| + |CLASS|
    ensures forall k :: 0 <= k < |className| ==>
      resourceName[k] == if className[k] == '.' then '/' else className[k]
    ensures EndsWith(resourceName, CLASS)
  {
    ReplaceChar(className, '.', '/');
    Replace(className, DOT, SLASH) + CLASS
  }

  /** Slashes back to dots in a resource name restores the class name with its suffix. */
  lemma ResourceNameDotted(className: string)
    requires '/' !in className
    ensures Replace(ResourceNameOf(className), SLASH, DOT) == className + CLASS
  {
    var n := |className|;
    var slashed := Replace(className, DOT, SLASH);
    ReplaceChar(className, '.', '/');
    var res := ResourceNameOf(className);
    ReplaceChar(res, '/', '.');
    var back := Replace(res, SLASH, DOT);
    forall k | 0 <= k < |back| ensures back[k] == (className + CLASS)[k] {
      if k < n {
        assert res[k] == slashed[k];
      } else {
        assert res[k] == CLASS[k - n];
      }
    }
  }

  /** In `name + ".class"`, no `.class` starts inside `name` unless it lies wholly inside it. */
  lemma NoStraddlingSuffix(name: string, j: int)
    requires 0 <= j < |name|
    requires !OccursAt(name, CLASS, j)
    ensures !OccursAt(name + CLASS, CLASS, j)
  {
    var s := name + CLASS;
    if j + |CLASS| <= |name| {
      assert s[j..j + |CLASS|] == name[j..j + |CLASS|];
    } else {
      var o := |name| - j;
      assert s[j..j + |CLASS|][o] == '.';
      assert CLASS[o] != '.';
    }
  }

  /**
   * As written, `resolveClassName` inverts `ResourceNameOf` exactly for the
   * plain class names that contain no `.class`: a package segment starting
   * with `class` (such as `a.classic.B`) is cut off.
   */
  lemma ClassNameOfResourceName(className: string)
    requires IsPlainClassName(className)
    ensures ClassNameOf(ResourceNameOf(className)) == className
      <==> forall j :: !OccursAt(className, CLASS, j)
  {
    ResourceNameDotted(className);
    var s := className + CLASS;
    var before := SubstringBefore(s, CLASS);
    assert OccursAt(s, CLASS, |className|);
    if forall j :: !OccursAt(className, CLASS, j) {
      forall j | 0 <= j < |className| ensures !OccursAt(s, CLASS, j) {
        NoStraddlingSuffix(className, j);
      }
      assert before == className;
    } else {
      var j :| OccursAt(className, CLASS, j);
      assert OccursAt(s, CLASS, j) by {
        assert s[j..j + |CLASS|] == className[j..j + |CLASS|];
      }
      assert |ClassNameOf(ResourceNameOf(className))| < |className|;
    }
  }

  /** The first `.class` in `a.classic.B.class` is the one inside the package name. */
  lemma ClassicCutAtPackage()
    ensures SubstringBefore("a.classic.B" + CLASS, CLASS) == "a"
  {
    var s := "a.classic.B" + CLASS;
    assert OccursAt(s, CLASS, 1) by {
      assert s[1..7] == CLASS;
    }
    assert !OccursAt(s, CLASS, 0) by {
      assert s[0..6][0] != CLASS[0];
    }
    assert IndexOf(s, CLASS) == 1;
  }

  /**
   * A concrete input on which the as-written resolution loses the class name:
   * the resource of `a.classic.B`, `a/classic/B.class`, resolves to `a`.
   */
  lemma ClassicPackageIsTruncated()
    ensures ClassNameOf(ResourceNameOf("a.classic.B")) == "a"
    ensures IntendedClassNameOf(ResourceNameOf("a.classic.B")) == "a.classic.B"
  {
    var cn := "a.classic.B";
    assert IsPlainClassName(cn) by {
      assert cn[..1] == "a";
    }
    ResourceNameDotted(cn);
    ClassicCutAtPackage();
    assert StripLeadingDots("a") == "a" by {
      assert "a"[..1] != DOT;
    }
    IntendedClassNameOfResourceName(cn);
  }

  /** The evidently intended resolution: only the trailing `.class` is dropped. */
  function IntendedClassNameOf(resourceName: string): (className: string)
    ensures |className| <= |resourceName|
    ensures '/' !in className
    ensures !StartsWith(className, DOT)
  {
    var dotted := Replace(resourceName, SLASH, DOT);
    ReplaceChar(resourceName, '/', '.');
    assert '/' !in dotted;
    var before := SubstringBeforeLast(dotted, CLASS);
    assert before == dotted[..|before|];
    StripLeadingDots(before)
  }

  /** `resolveClassName` with `substringBeforeLast`: strips the `.class` suffix and nothing more. */
  method ResolveClassNameIntended(resourceName: string) returns (className: string)
    ensures className == IntendedClassNameOf(resourceName)
    ensures '/' !in className
    ensures !StartsWith(className, DOT)
  {
    className := Replace(resourceName, SLASH, DOT);
    className := SubstringBeforeLast(className, CLASS);
    className := DropLeadingDots(className);
  }

  /** The intended resolution inverts `ResourceNameOf` for every plain class name. */
  lemma IntendedClassNameOfResourceName(className: string)
    requires IsPlainClassName(className)
    ensures IntendedClassNameOf(ResourceNameOf(className)) == className
  {
    ResourceNameDotted(className);
    var s := className + CLASS;
    assert OccursAt(s, CLASS, |className|);
    var before := SubstringBeforeLast(s, CLASS);
    assert before == className;
  }

  /* ---------------------------------------------------------------------
   * Class-path, class-name and package indexes
   * ------------------------------------------------------------------- */

  /** One entry of the class-path table: a class path and the class names found in it. */
  datatype ClassPathEntry = ClassPathEntry(classPath: string, classNames: set<string>)

  /** Every class name of every entry. */
  ghost function AllClassNames(entries: seq<ClassPathEntry>): set<string>
    decreases |entries|
  {
    if entries == [] then {}
    else AllClassNames(entries[..|entries| - 1]) + entries[|entries| - 1].classNames
  }

  lemma {:induction false} AllClassNamesMember(entries: seq<ClassPathEntry>, name: string)
    ensures name in AllClassNames(entries) <==>
      exists i :: 0 <= i < |entries| && name in entries[i].classNames
    decreases |entries|
  {
    if entries != [] {
      var init := entries[..|entries| - 1];
      AllClassNamesMember(init, name);
      if name in AllClassNames(init) {
        var i :| 0 <= i < |init| && name in init[i].classNames;
        assert entries[i] == init[i];
      }
      if exists i :: 0 <= i < |entries| && name in entries[i].classNames {
        var i :| 0 <= i < |entries| && name in entries[i].classNames;
        if i < |init| {
          assert init[i] == entries[i];
        }
      }
    }
  }

  /** The class path of the last entry, in table order, whose names contain `name`. */
  ghost function LastClassPathOf(entries: seq<ClassPathEntry>, name: string): (r: string)
    requires name in AllClassNames(entries)
    decreases |entries|
  {
    var last := entries[|entries| - 1];
    if name in last.classNames then last.classPath
    else LastClassPathOf(entries[..|entries| - 1], name)
  }

  /** Entry `i` contains `name`, and no later entry does. */
  ghost predicate IsLastEntryWith(entries: seq<ClassPathEntry>, name: string, i: int) {
    && 0 <= i < |entries|
    && name in entries[i].classNames
    && forall j :: i < j < |entries| ==> name !in entries[j].classNames
  }

  /** `LastClassPathOf` picks an entry containing the name after which no entry contains it. */
  lemma {:induction false} LastClassPathOfIsLast(entries: seq<ClassPathEntry>, name: string)
    requires name in AllClassNames(entries)
    ensures exists i :: IsLastEntryWith(entries, name, i) && entries[i].classPath == LastClassPathOf(entries, name)
    decreases |entries|
  {
    var n := |entries|;
    if name !in entries[n - 1].classNames {
      var init := entries[..n - 1];
      LastClassPathOfIsLast(init, name);
      var i :| IsLastEntryWith(init, name, i) && init[i].classPath == LastClassPathOf(init, name);
      assert entries[i] == init[i];
      forall j | i < j < n ensures name !in entries[j].classNames {
        if j < n - 1 {
          assert entries[j] == init[j];
        }
      }
      assert IsLastEntryWith(entries, name, i);
    } else {
      assert IsLastEntryWith(entries, name, n - 1);
    }
  }

  /**
   * `initClassNameToClassPathsMap`: every class name of every entry, mapped
   * to its class path; a name found under several class paths keeps the last.
   */
  method InitClassNameToClassPathsMap(entries: seq<ClassPathEntry>) returns (index: map<string, string>)
    ensures index.Keys == AllClassNames(entries)
    ensures forall name :: name in index ==> index[name] == LastClassPathOf(entries, name)
  {
    index := map[];
    for i := 0 to |entries|
      invariant index.Keys == AllClassNames(entries[..i])
      invariant forall name :: name in index ==> index[name] == LastClassPathOf(entries[..i], name)
    {
      var entry := entries[i];
      assert entries[..i + 1][..i] == entries[..i];
      var pending := entry.classNames;
      while pending != {}
        invariant pending <= entry.classNames
        invariant index.Keys == AllClassNames(entries[..i]) + (entry.classNames - pending)
        invariant forall name :: name in index && name in entry.classNames - pending ==>
          index[name] == entry.classPath
        invariant forall name :: name in index && name !in entry.classNames - pending ==>
          index[name] == LastClassPathOf(entries[..i], name)
        decreases pending
      {
        var className :| className in pending;
        index := index[className := entry.classPath];
        pending := pending - {className};
      }
    }
    assert entries[..|entries|] == entries;
  }

  /** `getAllClassNamesInClassPaths`: the union of the names of every entry. */
  method GetAllClassNamesInClassPaths(entries: seq<ClassPathEntry>) returns (allClassNames: set<string>)
    ensures allClassNames == AllClassNames(entries)
    ensures forall name :: name in allClassNames <==>
      exists i :: 0 <= i < |entries| && name in entries[i].classNames
  {
    allClassNames := {};
    for i := 0 to |entries|
      invariant allClassNames == AllClassNames(entries[..i])
    {
      assert entries[..i + 1][..i] == entries[..i];
      allClassNames := allClassNames + entries[i].classNames;
    }
    assert entries[..|entries|] == entries;
    forall name ensures name in allClassNames <==>
      exists i :: 0 <= i < |entries| && name in entries[i].classNames
    {
      AllClassNamesMember(entries, name);
    }
  }

  /** The package index of a set of class names: each package to the names it holds. */
  ghost function GroupByPackage(classNames: set<string>): map<string, set<string>> {
    map packageName | packageName in PackagesOf(classNames) :: ClassNamesIn(classNames, packageName)
  }

  /** The packages of a set of class names. */
  ghost function PackagesOf(classNames: set<string>): set<string> {
    set c | c in classNames :: ResolvePackageName(c)
  }

  /** The class names of a set that belong to one package. */
  ghost function ClassNamesIn(classNames: set<string>, packageName: string): set<string> {
    set c | c in classNames && ResolvePackageName(c) == packageName
  }

  /** Adding one class name adds its package to the packages. */
  lemma PackagesOfAdd(done: set<string>, className: string)
    ensures PackagesOf(done + {className}) == PackagesOf(done) + {ResolvePackageName(className)}
  {
  }

  /** Adding one class name changes the group of its own package only. */
  lemma ClassNamesInAdd(done: set<string>, className: string, packageName: string)
    ensures ClassNamesIn(done + {className}, packageName)
      == if packageName == ResolvePackageName(className) then ClassNamesIn(done, packageName) + {className}
         else ClassNamesIn(done, packageName)
  {
  }

  /** Adding one class name to a package index adds it to its own package's group only. */
  lemma GroupByPackageAdd(done: set<string>, className: string)
    ensures var p := ResolvePackageName(className);
      var g := GroupByPackage(done);
      GroupByPackage(done + {className})
        == g[p := (if p in g then g[p] else {}) + {className}]
  {
    var p := ResolvePackageName(className);
    var g := GroupByPackage(done);
    var g' := GroupByPackage(done + {className});
    var h := g[p := (if p in g then g[p] else {}) + {className}];
    PackagesOfAdd(done, className);
    assert g'.Keys == h.Keys;
    forall q | q in g' ensures g'[q] == h[q] {
      ClassNamesInAdd(done, className, q);
      if q == p && p !in g {
        assert ClassNamesIn(done, p) == {};
      }
    }
  }

  /**
   * `initPackageNameToClassNamesMap`: the class names of the class-name
   * index grouped by `ResolvePackageName`.
   */
  method InitPackageNameToClassNamesMap(classNameToClassPath: map<string, string>)
    returns (index: map<string, set<string>>)
    ensures index == GroupByPackage(classNameToClassPath.Keys)
    ensures forall className :: className in classNameToClassPath ==>
      ResolvePackageName(className) in index && className in index[ResolvePackageName(className)]
    ensures forall packageName :: packageName in index ==>
      && index[packageName] != {}
      && forall className :: className in index[packageName] ==>
           className in classNameToClassPath && ResolvePackageName(className) == packageName
  {
    index := map[];
    var pending := classNameToClassPath.Keys;
    while pending != {}
      invariant pending <= classNameToClassPath.Keys
      invariant index == GroupByPackage(classNameToClassPath.Keys - pending)
      decreases pending
    {
      var className :| className in pending;
      var packageName := ResolvePackageName(className);
      GroupByPackageAdd(classNameToClassPath.Keys - pending, className);
      assert classNameToClassPath.Keys - (pending - {className})
        == (classNameToClassPath.Keys - pending) + {className};
      if packageName !in index {
        index := index[packageName := {}];
      }
      index := index[packageName := index[packageName] + {className}];
      pending := pending - {className};
    }
    assert classNameToClassPath.Keys - pending == classNameToClassPath.Keys;
    forall packageName | packageName in index ensures index[packageName] != {} {
      var c :| c in classNameToClassPath.Keys && ResolvePackageName(c) == packageName;
      assert c in index[packageName];
    }
  }

  /** `getClassNamesInPackage`: the stored group of a known package, otherwise the empty set. */
  function GetClassNamesInPackage(index: map<string, set<string>>, packageName: string): (classNames: set<string>)
    ensures packageName in index ==> classNames == index[packageName]
    ensures packageName !in index ==> classNames == {}
  {
    if packageName in index then index[packageName] else {}
  }

  /**
   * Over an index built by `InitPackageNameToClassNamesMap`, a package's
   * class names are exactly the indexed names whose package it is; an unknown
   * package has none.
   */
  lemma GetClassNamesInPackageExact(classNames: set<string>, packageName: string)
    ensures GetClassNamesInPackage(GroupByPackage(classNames), packageName)
      == set c | c in classNames && ResolvePackageName(c) == packageName
    ensures packageName !in GroupByPackage(classNames) ==>
      GetClassNamesInPackage(GroupByPackage(classNames), packageName) == {}
  {
    var g := GroupByPackage(classNames);
    if packageName !in g {
      forall c | c in classNames ensures ResolvePackageName(c) != packageName {
        assert ResolvePackageName(c) in g;
      }
    }
  }
}
