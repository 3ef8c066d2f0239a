/**
 * `RedisCommandEvent`: the record of one intercepted Redis command, built
 * either from a captured invocation or, field by field, by its `Builder`.
 *
 * The final fields are `const`; the `String[]` and `byte[][]` arrays are
 * Dafny arrays, shared by reference exactly as the Java code shares them.
 * The individual `byte[]` payloads are values. The reflection, Spring and
 * serializer collaborators are plain data or function parameters.
 */
module RedisCommandEvents {
  import opened JavaLang

  /** `RedisCommandEventSerializer.VERSION_1`. */
  const VERSION_1: JByte := 1

  /** `RedisCommandEvent.SERIALIZATION_VERSION`. */
  const SERIALIZATION_VERSION: JByte := VERSION_1

  /** A class loader, known only by its identity. */
  datatype ClassLoader = ClassLoader(id: nat)

  /** The loader `ClassUtils.getDefaultClassLoader()` returned when the event class was initialised. */
  const DEFAULT_CLASS_LOADER: ClassLoader := ClassLoader(0)

  /** A `java.lang.Class`, known by its name. */
  datatype JClass = JClass(name: string)

  /** A `RedisContext`: the event reads only its class loader. */
  datatype RedisContext = RedisContext(classLoader: ClassLoader)

  /** A captured method parameter: its declared type name and its serialized value. */
  datatype Parameter = Parameter(parameterType: JString, rawValue: JBytes)

  /** The intercepted `Method`, seen through what the event asks of it. */
  datatype Method = Method(declaringClassName: string, name: string, parameterClasses: seq<JClass>)

  /** A `RedisMethodContext`: one intercepted invocation and where it happened. */
  datatype RedisMethodContext = RedisMethodContext(
    invokedMethod: Method,
    parameters: seq<Parameter>,
    applicationName: JString,
    redisContext: Nullable<RedisContext>,
    sourceBeanName: JString)

  /** `Arrays.equals(Object[], Object[])` over elements compared by value. */
  predicate ArraysEquals<T(==)>(a: array?<T>, b: array?<T>)
    reads a, b
  {
    a == b || (a != null && b != null && a.Length == b.Length && forall i :: 0 <= i < a.Length ==> a[i] == b[i])
  }

  /** The contents of an array reference, `Null` for a null reference. */
  function Contents<T>(a: array?<T>): Nullable<seq<T>>
    reads a
  {
    if a == null then Null else Value(a[..])
  }

  /** `Arrays.equals` holds exactly when the two references hold equal contents. */
  lemma ArraysEqualsContents<T>(a: array?<T>, b: array?<T>)
    ensures ArraysEquals(a, b) <==> Contents(a) == Contents(b)
  {
    if a != null && b != null && a[..] == b[..] {
      assert forall i :: 0 <= i < a.Length ==> a[i] == a[..][i] == b[..][i] == b[i];
    }
  }

  /** `Arrays.hashCode(String[])`: 0 for null, else the fold from 1 over the elements' hashes. */
  function StringsHash(a: array?<JString>, stringHash: string -> int): (r: int)
    reads a
    ensures IsInt32(r)
  {
    if a == null then 0
    else
      var s := a[..];
      HashFold(1, seq(|s|, i requires 0 <= i < |s| => StringHash(s[i], stringHash)))
  }

  /** `Arrays.deepHashCode(byte[][])`: 0 for null, else the fold from 1 over each `byte[]`'s hash. */
  function BytesArraysHash(a: array?<JBytes>): (r: int)
    reads a
    ensures IsInt32(r)
  {
    if a == null then 0
    else
      var s := a[..];
      HashFold(1, seq(|s|, i requires 0 <= i < |s| => BytesHash(s[i])))
  }

  class RedisCommandEvent {
    const interfaceName: JString
    const methodName: JString
    const parameterCount: int
    const parameterTypes: array<JString>
    const parameters: array?<JBytes>
    const sourceApplication: JString
    /** Never assigned in the class: always null. */
    const redisContext: Nullable<RedisContext>
    const redisMethodContext: Nullable<RedisMethodContext>
    /** The memo cell of `getClassLoader`. */
    var classLoader: Nullable<ClassLoader>

    /** The stored count agrees with the type array, and a filled memo holds the loader it stands for. */
    ghost predicate Valid()
      reads this
    {
      && parameterCount == parameterTypes.Length
      && (classLoader.Value? ==> classLoader.value == ContextClassLoader())
    }

    /**
     * The protected constructor the builder calls: the fields are taken as
     * they are, and the count is read off the type array (the null check is
     * the caller's, since `parameterTypes.length` throws on null).
     */
    constructor (interfaceName: JString, methodName: JString, parameterTypes: array<JString>,
                 parameters: array?<JBytes>, sourceApplication: JString)
      ensures Valid()
      ensures this.interfaceName == interfaceName && this.methodName == methodName
      ensures this.parameterTypes == parameterTypes && this.parameters == parameters
      ensures this.sourceApplication == sourceApplication
      ensures parameterCount == parameterTypes.Length
      ensures redisContext == Null && redisMethodContext == Null && classLoader == Null
    {
      this.interfaceName := interfaceName;
      this.methodName := methodName;
      this.parameterTypes := parameterTypes;
      this.parameterCount := parameterTypes.Length;
      this.parameters := parameters;
      this.sourceApplication := sourceApplication;
      this.redisContext := Null;
      this.redisMethodContext := Null;
      this.classLoader := Null;
    }

    /**
     * The capture constructor: names from the intercepted method, and fresh
     * arrays holding each captured parameter's type and raw value, in order.
     */
    constructor Capture(context: RedisMethodContext)
      ensures Valid()
      ensures interfaceName == Value(context.invokedMethod.declaringClassName)
      ensures methodName == Value(context.invokedMethod.name)
      ensures parameters != null && fresh(parameterTypes) && fresh(parameters)
      ensures parameterCount == parameterTypes.Length == parameters.Length == |context.parameters|
      ensures forall i :: 0 <= i < |context.parameters| ==>
        parameterTypes[i] == context.parameters[i].parameterType && parameters[i] == context.parameters[i].rawValue
      ensures sourceApplication == context.applicationName
      ensures redisContext == Null && redisMethodContext == Value(context) && classLoader == Null
    {
      var count := |context.parameters|;
      interfaceName := Value(context.invokedMethod.declaringClassName);
      methodName := Value(context.invokedMethod.name);
      parameterCount := count;
      parameterTypes := new JString[count](_ => Null);
      parameters := new JBytes[count](_ => Null);
      sourceApplication := context.applicationName;
      redisContext := Null;
      redisMethodContext := Value(context);
      classLoader := Null;
      new;
      Init(context.parameters, count);
    }

    /** `init`: copies each captured parameter's type and raw value into the arrays, index by index. */
    method Init(captured: seq<Parameter>, count: int)
      requires parameters != null
      requires 0 <= count <= |captured| && count <= parameterTypes.Length && count <= parameters.Length
      modifies parameterTypes, parameters
      ensures forall i :: 0 <= i < count ==>
        parameterTypes[i] == captured[i].parameterType && parameters[i] == captured[i].rawValue
      ensures forall i :: count <= i < parameterTypes.Length ==> parameterTypes[i] == old(parameterTypes[i])
      ensures forall i :: count <= i < parameters.Length ==> parameters[i] == old(parameters[i])
    {
      for i := 0 to count
        invariant forall k :: 0 <= k < i ==>
          parameterTypes[k] == captured[k].parameterType && parameters[k] == captured[k].rawValue
        invariant forall k :: i <= k < parameterTypes.Length ==> parameterTypes[k] == old(parameterTypes[k])
        invariant forall k :: i <= k < parameters.Length ==> parameters[k] == old(parameters[k])
      {
        var parameter := captured[i];
        parameterTypes[i] := parameter.parameterType;
        parameters[i] := parameter.rawValue;
      }
    }

    /** `getParameter`: the raw value at an index; out of range it throws. */
    function GetParameter(parameterIndex: int): (r: Result<JBytes>)
      reads parameters
      ensures r.Success? <==> parameters != null && 0 <= parameterIndex < parameters.Length
      ensures r.Success? ==> r.value == parameters[parameterIndex]
      ensures parameters == null ==> r == Failure(NullPointerException)
      ensures parameters != null && r.Failure? ==> r == Failure(ArrayIndexOutOfBoundsException(parameterIndex))
    {
      if parameters == null then Failure(NullPointerException)
      else if 0 <= parameterIndex < parameters.Length then Success(parameters[parameterIndex])
      else Failure(ArrayIndexOutOfBoundsException(parameterIndex))
    }

    /** `getParameterType`: the type name at an index; out of range it throws. */
    function GetParameterType(parameterIndex: int): (r: Result<JString>)
      reads parameterTypes
      ensures r.Success? <==> 0 <= parameterIndex < parameterTypes.Length
      ensures r.Success? ==> r.value == parameterTypes[parameterIndex]
      ensures r.Failure? ==> r == Failure(ArrayIndexOutOfBoundsException(parameterIndex))
    {
      if 0 <= parameterIndex < parameterTypes.Length then Success(parameterTypes[parameterIndex])
      else Failure(ArrayIndexOutOfBoundsException(parameterIndex))
    }

    /** `getParameterCount`: the length of the type array, whatever the payload array holds. */
    function GetParameterCount(): (count: int)
      reads this
      ensures count == parameterTypes.Length
      ensures Valid() ==> count == parameterCount
    {
      parameterTypes.Length
    }

    /**
     * `getObjectParameter`: the payload at an index, deserialized as its
     * declared type. Reading the payload fails first, then reading the type,
     * then the deserializer itself.
     */
    function GetObjectParameter<T>(parameterIndex: int, deserialize: (JBytes, JString) -> Result<T>): (r: Result<T>)
      reads parameters, parameterTypes
      ensures GetParameter(parameterIndex).Failure? ==> r == Failure(GetParameter(parameterIndex).error)
      ensures GetParameter(parameterIndex).Success? && parameterIndex >= parameterTypes.Length ==>
        r == Failure(ArrayIndexOutOfBoundsException(parameterIndex))
      ensures GetParameter(parameterIndex).Success? && parameterIndex < parameterTypes.Length ==>
        r == deserialize(parameters[parameterIndex], parameterTypes[parameterIndex])
    {
      match GetParameter(parameterIndex)
      case Failure(e) => Failure(e)
      case Success(parameter) =>
        match GetParameterType(parameterIndex)
        case Failure(e) => Failure(e)
        case Success(parameterType) => deserialize(parameter, parameterType)
    }

    /**
     * `getObjectParameters`: one deserialized value per declared type, in
     * order; the first index whose payload is missing or does not
     * deserialize ends the call with that index's exception.
     */
    method GetObjectParameters<T>(deserialize: (JBytes, JString) -> Result<T>) returns (r: Result<array<Nullable<T>>>)
      ensures r.Success? <==> forall i :: 0 <= i < GetParameterCount() ==> GetObjectParameter(i, deserialize).Success?
      ensures r.Failure? ==> exists i :: FirstFailure(i, deserialize) && GetObjectParameter(i, deserialize) == Failure(r.error)
      ensures parameters == null && GetParameterCount() > 0 ==> r == Failure(NullPointerException)
      ensures parameters != null && parameters.Length < GetParameterCount()
        && (forall k :: 0 <= k < parameters.Length ==> GetObjectParameter(k, deserialize).Success?)
        ==> r == Failure(ArrayIndexOutOfBoundsException(parameters.Length))
      ensures r.Success? ==> fresh(r.value) && r.value.Length == GetParameterCount()
      ensures r.Success? ==> forall i :: 0 <= i < r.value.Length ==>
        GetObjectParameter(i, deserialize).Success? && r.value[i] == Value(GetObjectParameter(i, deserialize).value)
    {
      var length := GetParameterCount();
      var objectParameters := new Nullable<T>[length](_ => Null);
      for i := 0 to length
        invariant i > 0 ==> parameters != null
        invariant parameters != null ==> i <= parameters.Length
        invariant forall k :: 0 <= k < i ==>
          GetObjectParameter(k, deserialize).Success? && objectParameters[k] == Value(GetObjectParameter(k, deserialize).value)
      {
        var objectParameter := GetObjectParameter(i, deserialize);
        if objectParameter.Failure? {
          assert FirstFailure(i, deserialize);
          return Failure(objectParameter.error);
        }
        objectParameters[i] := Value(objectParameter.value);
      }
      r := Success(objectParameters);
    }

    /** Index `i` is the first whose object parameter cannot be produced. */
    predicate FirstFailure<T>(i: int, deserialize: (JBytes, JString) -> Result<T>)
      reads this, parameters, parameterTypes
    {
      && 0 <= i < GetParameterCount()
      && GetObjectParameter(i, deserialize).Failure?
      && forall k :: 0 <= k < i ==> GetObjectParameter(k, deserialize).Success?
    }

    /** `getRedisContext`: the event's own context, else the one of the captured invocation. */
    function GetRedisContext(): (r: Nullable<RedisContext>)
      ensures redisContext.Value? ==> r == redisContext
      ensures redisContext == Null && redisMethodContext == Null ==> r == Null
      ensures redisContext == Null && redisMethodContext.Value? ==> r == redisMethodContext.value.redisContext
    {
      if redisContext == Null && redisMethodContext.Value? then redisMethodContext.value.redisContext
      else redisContext
    }

    /** The loader `getClassLoader` settles on: the context's loader, or the default without a context. */
    function ContextClassLoader(): ClassLoader {
      match GetRedisContext()
      case Null => DEFAULT_CLASS_LOADER
      case Value(context) => context.classLoader
    }

    /**
     * `getClassLoader`: the first call stores the context's (or the default)
     * loader in the memo cell; every call returns what the cell then holds.
     */
    method GetClassLoader() returns (loader: ClassLoader)
      requires Valid()
      modifies this`classLoader
      ensures Valid()
      ensures loader == ContextClassLoader()
      ensures classLoader == Value(loader)
      ensures old(classLoader).Value? ==> loader == old(classLoader).value
    {
      if classLoader == Null {
        var context := GetRedisContext();
        loader := if context == Null then DEFAULT_CLASS_LOADER else context.value.classLoader;
        classLoader := Value(loader);
      } else {
        loader := classLoader.value;
      }
    }

    /**
     * `getParameterClass`: without a captured invocation, the declared type
     * name resolved through the event's class loader; with one, the
     * intercepted method's parameter class.
     */
    method GetParameterClass(parameterIndex: int, resolve: (JString, ClassLoader) -> Result<JClass>)
      returns (r: Result<JClass>)
      requires Valid()
      modifies this`classLoader
      ensures Valid()
      ensures redisMethodContext == Null ==> r == ResolvedParameterClass(parameterIndex, resolve)
      ensures redisMethodContext.Value? ==> r == MethodParameterClass(parameterIndex)
      ensures old(classLoader).Value? || redisMethodContext.Value? || !(0 <= parameterIndex < GetParameterCount())
        ==> classLoader == old(classLoader)
      ensures redisMethodContext == Null && 0 <= parameterIndex < GetParameterCount()
        ==> classLoader == Value(ContextClassLoader())
    {
      if redisMethodContext == Null {
        var parameterType := GetParameterType(parameterIndex);
        if parameterType.Failure? {
          return Failure(parameterType.error);
        }
        var loader := GetClassLoader();
        r := resolve(parameterType.value, loader);
      } else {
        r := MethodParameterClass(parameterIndex);
      }
    }

    /** The class a declared type name resolves to through the event's class loader. */
    function ResolvedParameterClass(parameterIndex: int, resolve: (JString, ClassLoader) -> Result<JClass>)
      : Result<JClass>
      reads parameterTypes
    {
      match GetParameterType(parameterIndex)
      case Failure(e) => Failure(e)
      case Success(parameterType) => resolve(parameterType, ContextClassLoader())
    }

    /** The intercepted method's parameter class at an index. */
    function MethodParameterClass(parameterIndex: int): Result<JClass>
      requires redisMethodContext.Value?
    {
      var classes := redisMethodContext.value.invokedMethod.parameterClasses;
      if 0 <= parameterIndex < |classes| then Success(classes[parameterIndex])
      else Failure(ArrayIndexOutOfBoundsException(parameterIndex))
    }

    /**
     * `getParameterClasses`: without a captured invocation, one resolved
     * class per declared type, stopping at the first failure; with one, the
     * intercepted method's parameter classes.
     */
    method GetParameterClasses(resolve: (JString, ClassLoader) -> Result<JClass>)
      returns (r: Result<seq<JClass>>)
      requires Valid()
      modifies this`classLoader
      ensures Valid()
      ensures redisMethodContext.Value? ==> r == Success(redisMethodContext.value.invokedMethod.parameterClasses)
      ensures redisMethodContext == Null && r.Success? ==>
        && |r.value| == GetParameterCount()
        && forall i :: 0 <= i < |r.value| ==> ResolvedParameterClass(i, resolve) == Success(r.value[i])
      ensures redisMethodContext == Null && r.Failure? ==>
        exists i :: FirstUnresolved(i, resolve) && ResolvedParameterClass(i, resolve) == Failure(r.error)
      ensures old(classLoader).Value? || redisMethodContext.Value? || GetParameterCount() == 0
        ==> classLoader == old(classLoader)
      ensures redisMethodContext == Null && GetParameterCount() > 0
        ==> classLoader == Value(ContextClassLoader())
    {
      if redisMethodContext.Value? {
        return Success(redisMethodContext.value.invokedMethod.parameterClasses);
      }
      var parameterCount := GetParameterCount();
      var parameterClasses := new JClass[parameterCount](_ => JClass(""));
      for i := 0 to parameterCount
        invariant Valid()
        invariant i == 0 ==> classLoader == old(classLoader)
        invariant i > 0 ==> classLoader == Value(ContextClassLoader())
        invariant old(classLoader).Value? ==> classLoader == old(classLoader)
        invariant forall k :: 0 <= k < i ==> ResolvedParameterClass(k, resolve) == Success(parameterClasses[k])
      {
        var parameterClass := GetParameterClass(i, resolve);
        if parameterClass.Failure? {
          assert FirstUnresolved(i, resolve);
          return Failure(parameterClass.error);
        }
        parameterClasses[i] := parameterClass.value;
      }
      r := Success(parameterClasses[..]);
    }

    /** Index `i` is the first whose declared type does not resolve. */
    predicate FirstUnresolved(i: int, resolve: (JString, ClassLoader) -> Result<JClass>)
      reads this, parameterTypes
    {
      && 0 <= i < GetParameterCount()
      && ResolvedParameterClass(i, resolve).Failure?
      && forall k :: 0 <= k < i ==> ResolvedParameterClass(k, resolve).Success?
    }

    /** `getSourceBeanName`: known only for a captured invocation. */
    function GetSourceBeanName(): (r: JString)
      ensures redisMethodContext == Null ==> r == Null
      ensures redisMethodContext.Value? ==> r == redisMethodContext.value.sourceBeanName
    {
      if redisMethodContext == Null then Null else redisMethodContext.value.sourceBeanName
    }

    /** `getSerializationVersion`: always `VERSION_1`, whatever the event holds. */
    function GetSerializationVersion(): (version: JByte)
      ensures version == VERSION_1 == 1
    {
      SERIALIZATION_VERSION
    }

    /**
     * `equals`: the same object, or an event whose interface name, method
     * name, type array (element-wise), payload array (byte-wise) and source
     * application are all equal. Contexts, class loader and count are ignored.
     */
    predicate Equals(that: RedisCommandEvent?)
      reads parameterTypes, parameters
      reads if that == null then {} else {that.parameterTypes, that.parameters}
      ensures that == this ==> Equals(that)
      ensures that == null ==> !Equals(that)
    {
      if this == that then true
      else if that == null then false
      else
        && interfaceName == that.interfaceName
        && methodName == that.methodName
        && ArraysEquals(parameterTypes, that.parameterTypes)
        && ArraysEquals(parameters, that.parameters)
        && sourceApplication == that.sourceApplication
    }

    /**
     * `hashCode`: the 31-multiplier fold of the five compared fields' hashes,
     * in declaration order, null counting 0, given the `String` hash.
     */
    function HashCode(stringHash: string -> int): (h: int)
      reads parameterTypes, parameters
      ensures IsInt32(h)
    {
      HashFold(0, [
        StringHash(interfaceName, stringHash),
        StringHash(methodName, stringHash),
        StringsHash(parameterTypes, stringHash),
        BytesArraysHash(parameters),
        StringHash(sourceApplication, stringHash)])
    }
  }

  /** The five compared fields of two events hold the same values. */
  ghost predicate SameFields(a: RedisCommandEvent, b: RedisCommandEvent)
    reads a.parameterTypes, a.parameters, b.parameterTypes, b.parameters
  {
    && a.interfaceName == b.interfaceName
    && a.methodName == b.methodName
    && Contents(a.parameterTypes) == Contents(b.parameterTypes)
    && Contents(a.parameters) == Contents(b.parameters)
    && a.sourceApplication == b.sourceApplication
  }

  /** Two events are equal exactly when their five compared fields hold the same values. */
  lemma EqualsMeaning(a: RedisCommandEvent, b: RedisCommandEvent?)
    ensures a.Equals(b) <==> b != null && SameFields(a, b)
  {
    if b != null {
      ArraysEqualsContents(a.parameterTypes, b.parameterTypes);
      ArraysEqualsContents(a.parameters, b.parameters);
    }
  }

  /** `equals` is reflexive, symmetric and transitive. */
  lemma EqualsIsEquivalence(a: RedisCommandEvent, b: RedisCommandEvent, c: RedisCommandEvent)
    ensures a.Equals(a)
    ensures a.Equals(b) ==> b.Equals(a)
    ensures a.Equals(b) && b.Equals(c) ==> a.Equals(c)
  {
    EqualsMeaning(a, b);
    EqualsMeaning(b, a);
    EqualsMeaning(b, c);
    EqualsMeaning(a, c);
  }

  /** Equal events have equal hash codes, for any `String` hash. */
  lemma EqualsConsistentWithHashCode(a: RedisCommandEvent, b: RedisCommandEvent, stringHash: string -> int)
    requires a.Equals(b)
    ensures a.HashCode(stringHash) == b.HashCode(stringHash)
  {
    EqualsMeaning(a, b);
  }

  /** The mutable accumulator the decoder fills in, field by field. */
  class Builder {
    var interfaceName: JString
    var methodName: JString
    var parameterTypes: array?<JString>
    var parameters: array?<JBytes>
    var sourceApplication: JString

    /** A fresh builder: every field null. */
    constructor ()
      ensures interfaceName == Null && methodName == Null && sourceApplication == Null
      ensures parameterTypes == null && parameters == null
    {
      interfaceName := Null;
      methodName := Null;
      parameterTypes := null;
      parameters := null;
      sourceApplication := Null;
    }

    /** `interfaceName(String)`: sets that field only and returns the same builder. */
    method SetInterfaceName(interfaceName: JString) returns (self: Builder)
      modifies this
      ensures self == this && this.interfaceName == interfaceName
      ensures methodName == old(methodName) && parameterTypes == old(parameterTypes)
      ensures parameters == old(parameters) && sourceApplication == old(sourceApplication)
    {
      this.interfaceName := interfaceName;
      self := this;
    }

    /** `methodName(String)`: sets that field only and returns the same builder. */
    method SetMethodName(methodName: JString) returns (self: Builder)
      modifies this
      ensures self == this && this.methodName == methodName
      ensures interfaceName == old(interfaceName) && parameterTypes == old(parameterTypes)
      ensures parameters == old(parameters) && sourceApplication == old(sourceApplication)
    {
      this.methodName := methodName;
      self := this;
    }

    /** `parameterTypes(String...)`: stores the array reference itself and returns the same builder. */
    method SetParameterTypes(parameterTypes: array?<JString>) returns (self: Builder)
      modifies this
      ensures self == this && this.parameterTypes == parameterTypes
      ensures interfaceName == old(interfaceName) && methodName == old(methodName)
      ensures parameters == old(parameters) && sourceApplication == old(sourceApplication)
    {
      this.parameterTypes := parameterTypes;
      self := this;
    }

    /** `parameters(byte[][])`: stores the array reference itself and returns the same builder. */
    method SetParameters(parameters: array?<JBytes>) returns (self: Builder)
      modifies this
      ensures self == this && this.parameters == parameters
      ensures interfaceName == old(interfaceName) && methodName == old(methodName)
      ensures parameterTypes == old(parameterTypes) && sourceApplication == old(sourceApplication)
    {
      this.parameters := parameters;
      self := this;
    }

    /** `sourceApplication(String)`: sets that field only and returns the same builder. */
    method SetSourceApplication(sourceApplication: JString) returns (self: Builder)
      modifies this
      ensures self == this && this.sourceApplication == sourceApplication
      ensures interfaceName == old(interfaceName) && methodName == old(methodName)
      ensures parameterTypes == old(parameterTypes) && parameters == old(parameters)
    {
      this.sourceApplication := sourceApplication;
      self := this;
    }

    /** `getParameterCount`: the length of the type array; it throws while that array is unset. */
    function GetParameterCount(): (r: Result<int>)
      reads this
      ensures r.Success? <==> parameterTypes != null
      ensures r.Success? ==> r.value == parameterTypes.Length
      ensures r.Failure? ==> r.error == NullPointerException
    {
      if parameterTypes == null then Failure(NullPointerException) else Success(parameterTypes.Length)
    }

    /**
     * `build`: an event holding exactly the builder's current values, the
     * arrays shared by reference. Nothing is validated: null names and
     * mismatched lengths pass; only an unset type array fails, when the
     * constructor reads its length.
     */
    method Build() returns (r: Result<RedisCommandEvent>)
      ensures r.Success? <==> parameterTypes != null
      ensures r.Failure? ==> r.error == NullPointerException
      ensures r.Success? ==> fresh(r.value) && r.value.Valid()
      ensures r.Success? ==>
        && r.value.interfaceName == interfaceName
        && r.value.methodName == methodName
        && r.value.parameterTypes == parameterTypes
        && r.value.parameters == parameters
        && r.value.sourceApplication == sourceApplication
        && r.value.GetParameterCount() == GetParameterCount().value
      ensures r.Success? ==>
        r.value.redisContext == Null && r.value.redisMethodContext == Null && r.value.classLoader == Null
    {
      if parameterTypes == null {
        return Failure(NullPointerException);
      }
      var event := new RedisCommandEvent(interfaceName, methodName, parameterTypes, parameters, sourceApplication);
      r := Success(event);
    }
  }

  /**
   * The command the integration test intercepts: `set` on the string
   * commands with a key and a value, both `byte[]`. The captured event
   * names the string-commands interface and `set`, counts two parameters,
   * both typed `[B`, keeps the raw bytes in order, and carries the
   * application name `default`.
   */
  method CapturedSetCommand(key: seq<JByte>, value: seq<JByte>)
    returns (interfaceName: JString, methodName: JString, count: int, types: seq<JString>, payloads: seq<JBytes>,
             sourceApplication: JString)
    ensures interfaceName == Value("org.springframework.data.redis.connection.RedisStringCommands")
    ensures methodName == Value("set")
    ensures count == 2 && types == [Value("[B"), Value("[B")]
    ensures payloads == [Value(key), Value(value)]
    ensures sourceApplication == Value("default")
  {
    var bytesClass := JClass("[B");
    var context := RedisMethodContext(
      Method("org.springframework.data.redis.connection.RedisStringCommands", "set", [bytesClass, bytesClass]),
      [Parameter(Value("[B"), Value(key)), Parameter(Value("[B"), Value(value))],
      Value("default"), Null, Null);
    var event := new RedisCommandEvent.Capture(context);
    count := event.GetParameterCount();
    types := event.parameterTypes[..];
    payloads := event.parameters[..];
    interfaceName := event.interfaceName;
    methodName := event.methodName;
    sourceApplication := event.sourceApplication;
  }
}
