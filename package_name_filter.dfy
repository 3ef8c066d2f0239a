/**
 * `PackageNameClassNameFilter`: accepts the class names of one package and,
 * when asked to, of its sub-packages.
 */
module PackageNameFilter {
  import opened JavaLang
  import opened StringUtils
  import opened ClassUtils

  /** The filter's three final fields. */
  datatype PackageNameClassNameFilter = PackageNameClassNameFilter(
    packageName: string,
    includedSubPackages: bool,
    subPackageNamePrefix: JString)
  {
    /** The fields as the constructor leaves them: a prefix exactly when sub-packages are included. */
    predicate Valid() {
      subPackageNamePrefix == if includedSubPackages then Value(packageName + DOT) else Null
    }

    /**
     * `accept`: the class's package equals the filter's package, or, with
     * sub-packages included, starts with the filter's package and a dot.
     */
    predicate Accept(className: string)
      requires Valid()
      ensures ResolvePackageName(className) == packageName ==> Accept(className)
      ensures Accept(className) ==> StartsWith(ResolvePackageName(className), packageName)
      ensures !includedSubPackages ==> (Accept(className) <==> ResolvePackageName(className) == packageName)
    {
      var classPackage := ResolvePackageName(className);
      var accepted := classPackage == packageName;
      if !accepted && includedSubPackages then
        var prefix := subPackageNamePrefix.value;
        assert StartsWith(classPackage, prefix) ==> classPackage[..|packageName|] == prefix[..|packageName|];
        StartsWith(classPackage, prefix)
      else accepted
    }
  }

  /** The constructor: stores the package name and the flag, and derives the sub-package prefix. */
  function NewPackageNameClassNameFilter(packageName: string, includedSubPackages: bool)
    : (filter: PackageNameClassNameFilter)
    ensures filter.Valid()
    ensures filter.packageName == packageName && filter.includedSubPackages == includedSubPackages
  {
    PackageNameClassNameFilter(
      packageName, includedSubPackages,
      if includedSubPackages then Value(packageName + DOT) else Null)
  }

  /** `classPackage` is `packageName` itself or one of its sub-packages, segment by segment. */
  ghost predicate InPackageTree(classPackage: string, packageName: string) {
    classPackage == packageName || exists rest :: classPackage == packageName + DOT + rest
  }

  /**
   * What `accept` decides, stated without the prefix field: the exact package
   * always; a sub-package exactly when sub-packages are included.
   */
  lemma AcceptMeaning(filter: PackageNameClassNameFilter, className: string)
    requires filter.Valid()
    ensures var classPackage := ResolvePackageName(className);
      filter.Accept(className) <==>
        if filter.includedSubPackages then InPackageTree(classPackage, filter.packageName)
        else classPackage == filter.packageName
  {
    var classPackage := ResolvePackageName(className);
    var prefix := filter.packageName + DOT;
    if filter.includedSubPackages {
      if StartsWith(classPackage, prefix) {
        var rest := classPackage[|prefix|..];
        assert classPackage == prefix + rest;
      }
      if exists rest :: classPackage == prefix + rest {
        var rest :| classPackage == prefix + rest;
        assert classPackage[..|prefix|] == prefix;
      }
    }
  }

  /** A class of the filter's own package is always accepted. */
  lemma OwnPackageAccepted(filter: PackageNameClassNameFilter, className: string)
    requires filter.Valid()
    requires ResolvePackageName(className) == filter.packageName
    ensures filter.Accept(className)
  {
  }

  /**
   * The prefix ends with the dot: a sibling package that only shares the
   * filter's package name as text (`a.bc` for `a.b`) is never accepted.
   */
  lemma SiblingPackageRejected(filter: PackageNameClassNameFilter, className: string)
    requires filter.Valid()
    requires var classPackage := ResolvePackageName(className);
      && StartsWith(classPackage, filter.packageName)
      && |classPackage| > |filter.packageName|
      && classPackage[|filter.packageName|] != '.'
    ensures !filter.Accept(className)
  {
    var classPackage := ResolvePackageName(className);
    var n := |filter.packageName|;
    var prefix := filter.packageName + DOT;
    assert prefix[n] == '.';
    assert |prefix| <= |classPackage| ==> classPackage[..|prefix|][n] != prefix[n];
  }

  /** The example: with package `a.b` and its sub-packages, `a.bc.X` is rejected and `a.b.c.X` accepted. */
  lemma SiblingExample()
    ensures !NewPackageNameClassNameFilter("a.b", true).Accept("a.bc.X")
    ensures NewPackageNameClassNameFilter("a.b", true).Accept("a.b.c.X")
  {
    var filter := NewPackageNameClassNameFilter("a.b", true);
    var sibling := "a.bc.X";
    assert OccursAt(sibling, DOT, 4) && !OccursAt(sibling, DOT, 5) by {
      assert sibling[4..5] == DOT && sibling[5..6][0] != DOT[0];
    }
    assert LastIndexOf(sibling, DOT) == 4;
    assert ResolvePackageName(sibling) == "a.bc";
    SiblingPackageRejected(filter, sibling);

    var nested := "a.b.c.X";
    assert OccursAt(nested, DOT, 5) && !OccursAt(nested, DOT, 6) by {
      assert nested[5..6] == DOT && nested[6..7][0] != DOT[0];
    }
    assert LastIndexOf(nested, DOT) == 5;
    assert ResolvePackageName(nested) == "a.b.c";
    assert StartsWith("a.b.c", "a.b.");
  }

  /** Including sub-packages only ever adds accepted classes. */
  lemma AcceptMonotone(packageName: string, className: string)
    ensures NewPackageNameClassNameFilter(packageName, false).Accept(className)
      ==> NewPackageNameClassNameFilter(packageName, true).Accept(className)
  {
  }
}
