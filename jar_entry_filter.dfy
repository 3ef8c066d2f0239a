/**
 * `ClassFileJarEntryFilter`: the stateless filter that keeps the class files
 * of a jar. A jar entry is seen only through its directory flag and its name.
 */
module ClassFileFilter {
  import opened StringUtils
  import opened ClassUtils

  /** The two properties of a `JarEntry` the filter reads. */
  datatype JarEntry = JarEntry(isDirectory: bool, name: string)

  /** `accept`: not a directory, and the name ends with `.class`. */
  predicate Accept(entry: JarEntry)
    ensures entry.isDirectory ==> !Accept(entry)
    ensures Accept(entry) ==>
      |CLASS| <= |entry.name| && entry.name == entry.name[..|entry.name| - |CLASS|] + CLASS
  {
    !entry.isDirectory && EndsWith(entry.name, CLASS)
  }

  /** Accepted exactly are the non-directory entries whose name is some stem followed by `.class`. */
  lemma AcceptMeaning(entry: JarEntry)
    ensures Accept(entry) <==> !entry.isDirectory && exists stem :: entry.name == stem + CLASS
  {
    var name := entry.name;
    if EndsWith(name, CLASS) {
      var stem := name[..|name| - |CLASS|];
      assert name == stem + CLASS;
    }
    if exists stem :: name == stem + CLASS {
      var stem :| name == stem + CLASS;
      assert name[|name| - |CLASS|..] == CLASS;
    }
  }

  /** A directory entry is rejected whatever its name. */
  lemma DirectoryRejected(name: string)
    ensures !Accept(JarEntry(true, name))
  {
  }

  /**
   * The resource of every plain class name passes the filter, and the
   * intended resolution recovers the class name from it.
   */
  lemma ClassResourceAccepted(className: string)
    requires IsPlainClassName(className)
    ensures Accept(JarEntry(false, ResourceNameOf(className)))
    ensures IntendedClassNameOf(JarEntry(false, ResourceNameOf(className)).name) == className
  {
    IntendedClassNameOfResourceName(className);
  }
}
