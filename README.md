# microsphere: Redis command events and class-name utilities, in Dafny

This project models four pieces of the microsphere libraries and proves
properties of them.

- **`RedisCommandEvent` and its `Builder`** (microsphere-spring-redis). An
  event records one Redis command invocation. It holds:
  - the command interface name and the method name;
  - the declared parameter type names and the raw parameter payloads;
  - the source application;
  - optionally, the method context it was captured from.

  The event resolves parameter classes and deserialized parameter objects on
  demand, and remembers the class loader it resolves with. It has
  field-by-field equality and a matching hash. The model is a Dafny `class`:
  - the Java `final` fields are `const` fields;
  - the `String[]` and `byte[][]` arrays are `array?`, because Java allows
    null;
  - the lazily filled class-loader field is a `var`, changed only by
    `GetClassLoader`.

  `Builder` is a class with five mutable fields. Its chained setters return the
  builder itself.
- **`ClassUtils`** (microsphere-commons). The string transforms
  `resolvePackageName` and `resolveClassName`, and the three indexes built
  from the class-path table:
  - class name to class path;
  - package name to class names;
  - the set of all class names.

  The Apache Commons Lang `StringUtils` operations that these call
  (`replace`, `substringBefore`, `substringBeforeLast`, `substringAfter`,
  `startsWith`) are modelled with their documented semantics in
  `string_utils.dfy`.
- **`PackageNameClassNameFilter`**: accepts a class name by its package. With
  sub-packages included, it also accepts any package under the given one.
- **`ClassFileJarEntryFilter`**: accepts the jar entries that are not
  directories and whose names end in `.class`.

Java semantics are written out in `java_lang.dfy`:
- `null` is `Nullable.Null`, and a Java `byte` is an integer in -128..127.
- A thrown `NullPointerException` or `ArrayIndexOutOfBoundsException` is a
  `Result.Failure`.
- `int` arithmetic in `hashCode` wraps to 32 bits through `Int32`.
- `Arrays.hashCode` and `deepHashCode` are the 31-multiplier fold `HashFold`
  with seed 1.

`Builder.build()` validates nothing: it passes its fields straight to the
constructor. Its only failure is a `NullPointerException` when no type array
was set, because the constructor reads `parameterTypes.length`.

## Model

| member | source | states |
|---|---|---|
| RedisCommandEvents.RedisCommandEvent.constructor | microsphere-spring-projects/microsphere-spring/microsphere-spring-redis/src/main/java/io/github/microsphere/spring/redis/event/RedisCommandEvent.java:106-114 | The fields are the arguments, with the same array references. The parameter count is the length of the type array. The redis context, method context and class loader are null. |
| RedisCommandEvents.RedisCommandEvent.Capture | microsphere-spring-projects/microsphere-spring/microsphere-spring-redis/src/main/java/io/github/microsphere/spring/redis/event/RedisCommandEvent.java:116-128 | The interface name is the declaring class of the invoked method, and the method name is its name. The two new arrays have one slot per captured parameter and hold that parameter's type and raw value. The source application is the context's application name, and the method context is kept. |
| RedisCommandEvents.RedisCommandEvent.Init | microsphere-spring-projects/microsphere-spring/microsphere-spring-redis/src/main/java/io/github/microsphere/spring/redis/event/RedisCommandEvent.java:198-204 | For every index below the count, the type and payload slots hold the captured parameter's type and raw value. Every slot from the count on is unchanged. |
| RedisCommandEvents.RedisCommandEvent.GetParameter | microsphere-spring-projects/microsphere-spring/microsphere-spring-redis/src/main/java/io/github/microsphere/spring/redis/event/RedisCommandEvent.java:236-238 | Succeeds exactly when the payload array is non-null and the index is in range, and then returns that slot. A null array is a NullPointerException; any other failure is an out-of-bounds exception at that index. |
| RedisCommandEvents.RedisCommandEvent.GetParameterType | microsphere-spring-projects/microsphere-spring/microsphere-spring-redis/src/main/java/io/github/microsphere/spring/redis/event/RedisCommandEvent.java:246-248 | Succeeds exactly for an index in range and returns that type name; otherwise throws an out-of-bounds exception at that index. |
| RedisCommandEvents.RedisCommandEvent.GetParameterCount | microsphere-spring-projects/microsphere-spring/microsphere-spring-redis/src/main/java/io/github/microsphere/spring/redis/event/RedisCommandEvent.java:307-309 | The length of the type array, which in a valid event is the stored parameter count. |
| RedisCommandEvents.RedisCommandEvent.GetObjectParameter | microsphere-spring-projects/microsphere-spring/microsphere-spring-redis/src/main/java/io/github/microsphere/spring/redis/event/RedisCommandEvent.java:300-305 | A missing payload fails first, with the payload read's exception. A payload whose type index is out of range is an out-of-bounds exception at that index. Otherwise the result is whatever the deserializer returns for that payload and type, including its failure. |
| RedisCommandEvents.RedisCommandEvent.GetObjectParameters | microsphere-spring-projects/microsphere-spring/microsphere-spring-redis/src/main/java/io/github/microsphere/spring/redis/event/RedisCommandEvent.java:290-298 | Succeeds exactly when every index below the type count yields an object. On failure the error is that of the first index that yields none. A null payload array with at least one type is a NullPointerException. A short payload array whose present payloads all deserialize gives an out-of-bounds exception at its length. On success the result is a fresh array with one slot per type, each holding that index's deserialized object. |
| RedisCommandEvents.RedisCommandEvent.GetRedisContext | microsphere-spring-projects/microsphere-spring/microsphere-spring-redis/src/main/java/io/github/microsphere/spring/redis/event/RedisCommandEvent.java:333-342 | The event's own redis context when set. Otherwise the method context's redis context, or null when there is no method context. |
| RedisCommandEvents.RedisCommandEvent.GetClassLoader | microsphere-spring-projects/microsphere-spring/microsphere-spring-redis/src/main/java/io/github/microsphere/spring/redis/event/RedisCommandEvent.java:348-356 | The loader of the redis context, or the default loader when there is no context. It is stored on first use. A loader stored earlier is returned unchanged. |
| RedisCommandEvents.RedisCommandEvent.GetParameterClass | microsphere-spring-projects/microsphere-spring/microsphere-spring-redis/src/main/java/io/github/microsphere/spring/redis/event/RedisCommandEvent.java:256-264 | Without a method context, resolves the declared type name with the event's class loader. With one, returns the invoked method's declared parameter class at that index; an index out of range is an exception. The class-loader memo is filled with the context's (or the default) loader exactly when there is no method context and the index is in range; otherwise it is unchanged. A loader stored earlier is kept. |
| RedisCommandEvents.RedisCommandEvent.GetParameterClasses | microsphere-spring-projects/microsphere-spring/microsphere-spring-redis/src/main/java/io/github/microsphere/spring/redis/event/RedisCommandEvent.java:271-283 | With a method context, returns its method's parameter classes. Without one, on success returns one class per declared type, each that type resolved. On failure, returns the error of the first index whose resolution fails, every earlier index having resolved. The class-loader memo is filled exactly when there is no method context and there is at least one type; otherwise it is unchanged. A loader stored earlier is kept. |
| RedisCommandEvents.RedisCommandEvent.GetSourceBeanName | microsphere-spring-projects/microsphere-spring/microsphere-spring-redis/src/main/java/io/github/microsphere/spring/redis/event/RedisCommandEvent.java:323-326 | Null without a method context; otherwise the context's source bean name. |
| RedisCommandEvents.RedisCommandEvent.GetSerializationVersion | microsphere-spring-projects/microsphere-spring/microsphere-spring-redis/src/main/java/io/github/microsphere/spring/redis/event/RedisCommandEvent.java:328-331 | Always version 1, the serializer's `VERSION_1`. |
| RedisCommandEvents.RedisCommandEvent.HashCode | microsphere-spring-projects/microsphere-spring/microsphere-spring-redis/src/main/java/io/github/microsphere/spring/redis/event/RedisCommandEvent.java:373-381 | The result is a 32-bit Java `int`. The fields hash as in the source, folded with multiplier 31 and wrapped to 32 bits. Its agreement with `equals` is `EqualsConsistentWithHashCode`. |
| RedisCommandEvents.RedisCommandEvent.Equals | microsphere-spring-projects/microsphere-spring/microsphere-spring-redis/src/main/java/io/github/microsphere/spring/redis/event/RedisCommandEvent.java:358-371 | An event equals itself, and never equals null. The full field-by-field meaning is `EqualsMeaning`. |
| RedisCommandEvents.EqualsMeaning | microsphere-spring-projects/microsphere-spring/microsphere-spring-redis/src/main/java/io/github/microsphere/spring/redis/event/RedisCommandEvent.java:358-371 | `equals` holds exactly when the other event is non-null and these all match: both names and the source application (null-safe), the type arrays element by element, and the payload arrays by content. Both arrays may be null. |
| RedisCommandEvents.EqualsIsEquivalence | microsphere-spring-projects/microsphere-spring/microsphere-spring-redis/src/main/java/io/github/microsphere/spring/redis/event/RedisCommandEvent.java:358-371 | `equals` is reflexive, symmetric and transitive. |
| RedisCommandEvents.EqualsConsistentWithHashCode | microsphere-spring-projects/microsphere-spring/microsphere-spring-redis/src/main/java/io/github/microsphere/spring/redis/event/RedisCommandEvent.java:373-381 | Two events that are `equals` have the same `hashCode`. |
| RedisCommandEvents.Builder.constructor | microsphere-spring-projects/microsphere-spring/microsphere-spring-redis/src/main/java/io/github/microsphere/spring/redis/event/RedisCommandEvent.java:130-140 | Every field of a new builder is null. |
| RedisCommandEvents.Builder.SetInterfaceName | microsphere-spring-projects/microsphere-spring/microsphere-spring-redis/src/main/java/io/github/microsphere/spring/redis/event/RedisCommandEvent.java:142-145 | Sets the interface name, returns the same builder, and leaves the other four fields unchanged. |
| RedisCommandEvents.Builder.SetMethodName | microsphere-spring-projects/microsphere-spring/microsphere-spring-redis/src/main/java/io/github/microsphere/spring/redis/event/RedisCommandEvent.java:147-150 | Sets the method name, returns the same builder, and leaves the other four fields unchanged. |
| RedisCommandEvents.Builder.SetParameterTypes | microsphere-spring-projects/microsphere-spring/microsphere-spring-redis/src/main/java/io/github/microsphere/spring/redis/event/RedisCommandEvent.java:153-156 | Sets the type array (the same reference), returns the same builder, and leaves the other four fields unchanged. |
| RedisCommandEvents.Builder.SetParameters | microsphere-spring-projects/microsphere-spring/microsphere-spring-redis/src/main/java/io/github/microsphere/spring/redis/event/RedisCommandEvent.java:158-161 | Sets the payload array (the same reference), returns the same builder, and leaves the other four fields unchanged. |
| RedisCommandEvents.Builder.SetSourceApplication | microsphere-spring-projects/microsphere-spring/microsphere-spring-redis/src/main/java/io/github/microsphere/spring/redis/event/RedisCommandEvent.java:163-166 | Sets the source application, returns the same builder, and leaves the other four fields unchanged. |
| RedisCommandEvents.Builder.GetParameterCount | microsphere-spring-projects/microsphere-spring/microsphere-spring-redis/src/main/java/io/github/microsphere/spring/redis/event/RedisCommandEvent.java:176-178 | The length of the type array. A NullPointerException when none has been set. |
| RedisCommandEvents.Builder.Build | microsphere-spring-projects/microsphere-spring/microsphere-spring-redis/src/main/java/io/github/microsphere/spring/redis/event/RedisCommandEvent.java:192-194 | Succeeds exactly when a type array has been set; otherwise a NullPointerException. On success the event is fresh and valid. It carries the builder's five fields (the same arrays) and the builder's parameter count. Its redis context, method context and class loader are null. |
| RedisCommandEvents.CapturedSetCommand | microsphere-spring-projects/microsphere-spring/microsphere-spring-redis/src/test/java/io/github/microsphere/spring/redis/AbstractRedisCommandEventTest.java:69-93 | Capturing `set(key, value)` on the string commands gives the interface name `org.springframework.data.redis.connection.RedisStringCommands` and the method name `set`. It has two parameters, both of type `[B`, with payloads key then value, and the source application `default`. |
| ClassUtils.ResolvePackageName | microsphere-commons/microsphere-commons-core/src/main/java/io/github/microsphere/commons/util/ClassUtils.java:106-108 | The result is a prefix of the class name. Without a dot it is the whole name. Otherwise it ends right before a dot, and no dot follows that one. |
| ClassUtils.StripLeadingDots | microsphere-commons/microsphere-commons-core/src/main/java/io/github/microsphere/commons/util/ClassUtils.java:244-246 | The result is a suffix of the input that does not start with a dot. An input without a leading dot is returned as it is. Everything removed is a dot. |
| ClassUtils.DropLeadingDots | microsphere-commons/microsphere-commons-core/src/main/java/io/github/microsphere/commons/util/ClassUtils.java:244-246 | The loop that removes leading dots one by one computes `StripLeadingDots`. |
| ClassUtils.ClassNameOf | microsphere-commons/microsphere-commons-core/src/main/java/io/github/microsphere/commons/util/ClassUtils.java:241-248 | The class name that `resolveClassName` yields as written. It is never longer than the resource name, contains no slash, and does not start with a dot. |
| ClassUtils.ResourceNameOf | microsphere-commons/microsphere-commons-core/src/main/java/io/github/microsphere/commons/util/ClassUtils.java:241-243 | The resource name that `resolveClassName` is meant to undo: each dot of the class name becomes a slash, every other character is kept, and `.class` follows. |
| ClassUtils.ResolveClassName | microsphere-commons/microsphere-commons-core/src/main/java/io/github/microsphere/commons/util/ClassUtils.java:241-248 | The replace, cut and dot-stripping steps in source order compute the as-written resolution `ClassNameOf`. The result contains no slash and does not start with a dot. |
| ClassUtils.ClassNameOfResourceName | microsphere-commons/microsphere-commons-core/src/main/java/io/github/microsphere/commons/util/ClassUtils.java:241-248 | As written, resolving the resource name of a plain class name gives that class name back exactly when the name contains no `.class`. |
| ClassUtils.ClassicPackageIsTruncated | microsphere-commons/microsphere-commons-core/src/main/java/io/github/microsphere/commons/util/ClassUtils.java:243 | The as-written resolution turns the resource name of the class `a.classic.B` (`a/classic/B.class`) into `a`. The intended resolution gives `a.classic.B`. |
| ClassUtils.ResolveClassNameIntended | microsphere-commons/microsphere-commons-core/src/main/java/io/github/microsphere/commons/util/ClassUtils.java:241-248 | Resolution that removes only the last `.class`. The result has no slash and no leading dot. |
| ClassUtils.IntendedClassNameOf | microsphere-commons/microsphere-commons-core/src/main/java/io/github/microsphere/commons/util/ClassUtils.java:241-248 | Resolution that removes only the last `.class`. It is never longer than the resource name, contains no slash, and does not start with a dot. |
| ClassUtils.IntendedClassNameOfResourceName | microsphere-commons/microsphere-commons-core/src/main/java/io/github/microsphere/commons/util/ClassUtils.java:241-248 | The intended resolution inverts the resource naming for every plain class name. |
| ClassUtils.LastClassPathOfIsLast | microsphere-commons/microsphere-commons-core/src/main/java/io/github/microsphere/commons/util/ClassUtils.java:62-68 | The class path recorded for a name is the path of the last table entry that lists the name. Later puts overwrite earlier ones. |
| ClassUtils.InitClassNameToClassPathsMap | microsphere-commons/microsphere-commons-core/src/main/java/io/github/microsphere/commons/util/ClassUtils.java:59-71 | The keys are exactly the class names of all entries. Each key maps to the path of the last entry that lists it. |
| ClassUtils.AllClassNamesMember | microsphere-commons/microsphere-commons-core/src/main/java/io/github/microsphere/commons/util/ClassUtils.java:267-273 | A name is among all class names exactly when some entry lists it. |
| ClassUtils.GetAllClassNamesInClassPaths | microsphere-commons/microsphere-commons-core/src/main/java/io/github/microsphere/commons/util/ClassUtils.java:267-273 | The result is the union of the class names of all entries: a name is in it exactly when some entry lists it. |
| ClassUtils.GroupByPackageAdd | microsphere-commons/microsphere-commons-core/src/main/java/io/github/microsphere/commons/util/ClassUtils.java:76-84 | Adding one class name to the grouping puts it in its package's set, creating that set if needed. Every other package is untouched. |
| ClassUtils.InitPackageNameToClassNamesMap | microsphere-commons/microsphere-commons-core/src/main/java/io/github/microsphere/commons/util/ClassUtils.java:73-87 | The map groups the keys of the class-path index by package. Every class name is in its package's set. Every set is non-empty and holds only indexed names of that package. |
| ClassUtils.GetClassNamesInPackage | microsphere-commons/microsphere-commons-core/src/main/java/io/github/microsphere/commons/util/ClassUtils.java:185-188 | The stored set of a known package, and the empty set (never null) for any other package. |
| ClassUtils.GetClassNamesInPackageExact | microsphere-commons/microsphere-commons-core/src/main/java/io/github/microsphere/commons/util/ClassUtils.java:185-188 | The names returned for a package are exactly the indexed names whose package it is. A package with no classes gives the empty set. |
| StringUtils.ReplaceChar | microsphere-commons/microsphere-commons-core/src/main/java/io/github/microsphere/commons/util/ClassUtils.java:242 | Replacing one character by another keeps the length and maps the string character by character. |
| StringUtils.Replace | microsphere-commons/microsphere-commons-core/src/main/java/io/github/microsphere/commons/util/ClassUtils.java:242 | With an empty search string, or one that does not occur, the text comes back unchanged. Otherwise the result starts with the text before the first occurrence, followed by the replacement. |
| StringUtils.SubstringBefore | microsphere-commons/microsphere-commons-core/src/main/java/io/github/microsphere/commons/util/ClassUtils.java:243 | The result is a prefix that contains no occurrence of the separator. It is the whole string exactly when the separator does not occur; otherwise it ends where the first occurrence starts. |
| StringUtils.SubstringBeforeLast | microsphere-commons/microsphere-commons-core/src/main/java/io/github/microsphere/commons/util/ClassUtils.java:107 | The result is a prefix. For a non-empty separator, it is the whole string exactly when the separator does not occur. Otherwise the last occurrence starts right after it. |
| StringUtils.SubstringAfter | microsphere-commons/microsphere-commons-core/src/main/java/io/github/microsphere/commons/util/ClassUtils.java:245 | The text after the first occurrence of the separator. The empty string when the separator does not occur. |
| PackageNameFilter.NewPackageNameClassNameFilter | microsphere-commons/microsphere-commons-core/src/main/java/io/github/microsphere/commons/filter/PackageNameClassNameFilter.java:28-32 | The filter keeps the package name and the flag. The prefix is the package name plus a dot when sub-packages are included, and null otherwise. |
| PackageNameFilter.PackageNameClassNameFilter.Accept | microsphere-commons/microsphere-commons-core/src/main/java/io/github/microsphere/commons/filter/PackageNameClassNameFilter.java:35-42 | A class of the filter's own package is accepted. Every accepted class has a package that starts with the filter's package name. Without sub-packages, a class is accepted exactly when its package is the filter's. |
| PackageNameFilter.AcceptMeaning | microsphere-commons/microsphere-commons-core/src/main/java/io/github/microsphere/commons/filter/PackageNameClassNameFilter.java:35-42 | Without sub-packages, a class is accepted exactly when its package equals the filter's. With them, it is accepted exactly when its package is the filter's or the filter's followed by a dot and more. |
| PackageNameFilter.OwnPackageAccepted | microsphere-commons/microsphere-commons-core/src/main/java/io/github/microsphere/commons/filter/PackageNameClassNameFilter.java:36-37 | A class in the filter's own package is always accepted. |
| PackageNameFilter.SiblingPackageRejected | microsphere-commons/microsphere-commons-core/src/main/java/io/github/microsphere/commons/filter/PackageNameClassNameFilter.java:31-40 | A package that merely starts with the filter's name as text and then continues without a dot (`a.bc` for `a.b`) is never accepted. |
| PackageNameFilter.SiblingExample | microsphere-commons/microsphere-commons-core/src/main/java/io/github/microsphere/commons/filter/PackageNameClassNameFilter.java:31-40 | With sub-packages, the filter for `a.b` rejects `a.bc.X` and accepts `a.b.c.X`. |
| PackageNameFilter.AcceptMonotone | microsphere-commons/microsphere-commons-core/src/main/java/io/github/microsphere/commons/filter/PackageNameClassNameFilter.java:37-40 | Including sub-packages never rejects a class that the exact filter accepts. |
| ClassFileFilter.AcceptMeaning | microsphere-commons/microsphere-commons-core/src/main/java/io/github/microsphere/commons/filter/ClassFileJarEntryFilter.java:30-32 | An entry is accepted exactly when it is not a directory and its name is some stem followed by `.class`. |
| ClassFileFilter.Accept | microsphere-commons/microsphere-commons-core/src/main/java/io/github/microsphere/commons/filter/ClassFileJarEntryFilter.java:30-32 | A directory is never accepted. An accepted entry's name is a stem followed by `.class`. |
| ClassFileFilter.DirectoryRejected | microsphere-commons/microsphere-commons-core/src/main/java/io/github/microsphere/commons/filter/ClassFileJarEntryFilter.java:31 | A directory entry is never accepted, whatever its name. |
| ClassFileFilter.ClassResourceAccepted | microsphere-commons/microsphere-commons-core/src/main/java/io/github/microsphere/commons/filter/ClassFileJarEntryFilter.java:31 | The file entry of any plain class is accepted. The intended resolution of its name gives back the class name; the as-written one does not always do so (see Findings). |

## Left out

- The wire codec is not part of this model. This covers `RedisCommandEventSerializer`, its codec registry and its version dispatch. Only the constant `VERSION_1 = 1` is taken from it (microsphere-spring-projects/microsphere-spring/microsphere-spring-redis/src/main/java/io/github/microsphere/spring/redis/serializer/RedisCommandEventSerializer.java:47).
- The `ApplicationEvent` base class, with its source object and timestamp, and `toString` are not part of this model.
- `String.hashCode` is a function parameter `stringHash`; only its 32-bit range is used.
- Reflection and deserialization are function parameters of the members that use them: Spring's `ClassUtils.resolveClassName` and `Serializers.deserialize`. Each returns a `Result`, and its failure is propagated as the source propagates the exception. A type name that does not resolve is expected to be reported as `IllegalArgumentException`, as Spring throws. Other throwables (errors such as `LinkageError`) are not distinguished.
- `DEFAULT_CLASS_LOADER` is a stand-in loader value. The class loaders themselves are opaque identifiers.
- RedisCommandEvents.RedisCommandEvent.GetClassLoader: null class loaders are not modelled. Spring's `getDefaultClassLoader()` (RedisCommandEvent.java:66) and a redis context's `getClassLoader()` may both return null. The source then stores null (:352-353) and computes the loader again on every later call. The model's loaders are never null, so its "computed once, then kept" memo contract covers only non-null loaders.
- `equals` compares against another `RedisCommandEvent` or null. Objects of other classes, which the source rejects through `getClass()`, are not modelled.
- The inner `byte[]` payloads are values. Aliasing between payload arrays held by different events, and later mutation of a payload, are not modelled; the outer arrays are real arrays.
- The plain getters of the event and the builder are not separate members. They return the fields, which the model exposes directly: `getInterfaceName`, `getMethodName`, `getParameterTypes`, `getParameters`, `getSourceApplication` and `getRedisMethodContext`.
- The class-loader memo is updated without synchronisation in the source. The model is sequential.
- ClassUtils' scanning of directories and jar files is input/output and is not part of this model. The class-path table is an input sequence of entries. This covers the static initialisers, `findClassNamesInClassPath`, the directory and jar walkers and `getCodeSourceLocation`.
- `getClassNamesInClassPath` is not part of this model: when the stored set is empty it falls back to a file-system scan (ClassUtils.java:160-163). `getAllPackageNamesInClassPaths` is the key set of `InitPackageNameToClassNamesMap`'s result, and `findClassPath` is a lookup in `InitClassNameToClassPathsMap`'s result; neither is a separate member.
- ClassUtils' maps are Dafny `map` and `set` values. The insertion order of the `LinkedHashMap` and `LinkedHashSet` results is not modelled, and neither are their unmodifiable wrappers.
- `null` class names and resource names passed to ClassUtils or to the filters are not modelled. All such strings are non-null.
- The `ClassFileJarEntryFilter.INSTANCE` singleton and the `Filter` interface are not part of this model. The filter is the predicate `ClassFileFilter.Accept`.
- RedisCommandEvents.RedisCommandEvent.HashCode: its contract states only the 32-bit range. The agreement with `equals` is proved separately, because the hash of a string is a parameter.

## Findings

| source | as written | input that shows it | evidently intended | confidence | as-written member | corrected member |
|---|---|---|---|---|---|---|
| microsphere-commons/microsphere-commons-core/src/main/java/io/github/microsphere/commons/util/ClassUtils.java:243 | `resolveClassName` cuts the dotted resource name at the first `.class` (`substringBefore`) | `a/classic/B.class`, the resource of class `a.classic.B`, resolves to `a` | only the trailing `.class` suffix is removed (`substringBeforeLast`), so every class name comes back | not executed; high | ClassUtils.ClassicPackageIsTruncated | ClassUtils.IntendedClassNameOfResourceName |
