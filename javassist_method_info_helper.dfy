/** The scanner's method-descriptor helper: from a compiled method's
    descriptor, access flags and optional LocalVariableTable it produces the
    parameter type tokens, the parameter names and the parameter classes.
    The helper does not validate descriptors, and its known shortcuts are
    kept as they are: tokens are cut only at ';', a synchronized method
    shifts the name lookup by one more entry, and '[' decodes to
    `java.util.Arrays`. */
module JavassistMethodInfoHelper {
  import opened Results
  import opened JavaLang
  import opened JavaSplit
  import opened JavaNumbers

  /** The LocalVariableTable attribute: the name of each entry, in table
      order. `variableName(k)` reads entry `k`. */
  datatype LocalVariableAttribute = LocalVariableAttribute(entryNames: seq<string>)

  /** The Code attribute, reduced to the LocalVariableTable it may carry. */
  datatype CodeAttribute = CodeAttribute(localVariableTable: Option<LocalVariableAttribute>)

  /** What the helper reads of a method: its descriptor, its access flags
      (the u2 `access_flags` item) and its Code attribute, which abstract
      and native methods lack. */
  datatype MethodInfo = MethodInfo(
    descriptor: string,
    accessFlags: bv16,
    codeAttribute: Option<CodeAttribute>)

  /** A loaded class, known by its binary name. */
  datatype ClassRef = ClassRef(name: string)

  /** `Class.forName`: the class of that name, or None when it cannot be found. */
  type Resolver = string -> Option<ClassRef>

  const ACC_STATIC: bv16 := 0x0008
  const ACC_SYNCHRONIZED: bv16 := 0x0020

  predicate IsStatic(flags: bv16) { flags & ACC_STATIC != 0 }

  predicate IsSynchronized(flags: bv16) { flags & ACC_SYNCHRONIZED != 0 }

  /** The classes the helper returns for the base-type tags and for '['. */
  const BYTE_CLASS := ClassRef("java.lang.Byte")
  const CHARACTER_CLASS := ClassRef("java.lang.Character")
  const DOUBLE_CLASS := ClassRef("java.lang.Double")
  const FLOAT_CLASS := ClassRef("java.lang.Float")
  const INTEGER_CLASS := ClassRef("java.lang.Integer")
  const LONG_CLASS := ClassRef("java.lang.Long")
  const SHORT_CLASS := ClassRef("java.lang.Short")
  const BOOLEAN_CLASS := ClassRef("java.lang.Boolean")
  const ARRAYS_CLASS := ClassRef("java.util.Arrays")

  /** The text between the first '(' and the last ')' of a descriptor, with
      the bounds checks of `String.substring`. */
  function ParamsText(desc: string): (r: Result<string, Throwable>)
    ensures r.Success? <==> IndexOf(desc, '(') + 1 <= LastIndexOf(desc, ')')
    ensures r.Failure? ==> r.error == StringIndexOutOfBounds
    ensures r.Success? ==> ')' !in desc[LastIndexOf(desc, ')') + 1..]
    ensures r.Success? ==> r.value == desc[IndexOf(desc, '(') + 1..LastIndexOf(desc, ')')]
  {
    Substring(desc, IndexOf(desc, '(') + 1, LastIndexOf(desc, ')'))
  }

  /** `getMethodParamTypeNames`: the parameter text split at ';', or no
      tokens at all when the parameter text is empty. */
  function GetMethodParamTypeNames(m: MethodInfo): (r: Result<seq<string>, Throwable>)
    ensures r.Failure? <==> ParamsText(m.descriptor).Failure?
    ensures r.Failure? ==> r.error == StringIndexOutOfBounds
    ensures r.Success? ==> forall k :: 0 <= k < |r.value| ==> ';' !in r.value[k]
    ensures r.Success? && ParamsText(m.descriptor).value == "" ==> r.value == []
  {
    var paramsString :- ParamsText(m.descriptor);
    if |paramsString| == 0 then Success([]) else Success(Split(paramsString, ';'))
  }

  /** The tokens joined with ';', followed by the trailing ';' characters that
      the split drops, give back the parameter text they were cut from. */
  lemma TokensRebuildParamsText(m: MethodInfo)
    requires GetMethodParamTypeNames(m).Success?
    ensures var text := ParamsText(m.descriptor).value;
      Join(GetMethodParamTypeNames(m).value, ';') + Repeat(';', TrailingRun(text, ';')) == text
  {
    var text := ParamsText(m.descriptor).value;
    if text != "" {
      SplitJoin(text, ';');
    }
  }

  /** The LocalVariableTable the helper consults, if the method has a Code
      attribute and that attribute has one. */
  function LocalVariableTable(m: MethodInfo): (t: Option<LocalVariableAttribute>)
    ensures t.Some? <==> m.codeAttribute.Some? && m.codeAttribute.value.localVariableTable.Some?
  {
    match m.codeAttribute
    case None => None
    case Some(code) => code.localVariableTable
  }

  /** How far the helper shifts parameter `i` in the table: one if the method
      is synchronized, plus one if it is not static. */
  function SlotOffset(flags: bv16): (j: nat)
    ensures j <= 2
    ensures j == 0 <==> IsStatic(flags) && !IsSynchronized(flags)
    ensures j == 2 <==> !IsStatic(flags) && IsSynchronized(flags)
  {
    (if IsSynchronized(flags) then 1 else 0) + (if IsStatic(flags) then 0 else 1)
  }

  /** The loop of `getMethodParamNames`: `n` names, entry `i + j` of the
      table when there is one, else the decimal text of `i`. Reading an entry
      past the end of the table throws and no names are returned. */
  method LookUpParamNames(n: nat, localVarAttr: Option<LocalVariableAttribute>, j: nat)
    returns (r: Result<seq<string>, Throwable>)
    ensures r.Success? <==> localVarAttr.None? || n == 0 || n + j <= |localVarAttr.value.entryNames|
    ensures r.Failure? ==> r.error == ArrayIndexOutOfBounds
    ensures r.Success? ==> |r.value| == n
    ensures r.Success? && localVarAttr.None? ==> forall i :: 0 <= i < n ==> r.value[i] == DecimalString(i)
    ensures r.Success? && localVarAttr.Some? ==> forall i :: 0 <= i < n ==>
      r.value[i] == localVarAttr.value.entryNames[i + j]
  {
    var retVal := new string[n];
    for i := 0 to retVal.Length
      invariant localVarAttr.None? ==> forall k :: 0 <= k < i ==> retVal[k] == DecimalString(k)
      invariant localVarAttr.Some? ==> i == 0 || i - 1 + j < |localVarAttr.value.entryNames|
      invariant localVarAttr.Some? ==> forall k :: 0 <= k < i ==>
        k + j < |localVarAttr.value.entryNames| && retVal[k] == localVarAttr.value.entryNames[k + j]
    {
      if localVarAttr.None? {
        retVal[i] := DecimalString(i);
      } else {
        var names := localVarAttr.value.entryNames;
        if i + j >= |names| {
          return Failure(ArrayIndexOutOfBounds);
        }
        retVal[i] := names[i + j];
      }
    }
    return Success(retVal[..]);
  }

  /** `getMethodParamNames`: one name per type token, looked up `j` entries
      further down the table, where `j` is the slot offset. */
  method GetMethodParamNames(m: MethodInfo) returns (r: Result<seq<string>, Throwable>)
    ensures GetMethodParamTypeNames(m).Failure? ==> r == Failure(GetMethodParamTypeNames(m).error)
    ensures GetMethodParamTypeNames(m).Success? ==>
      var n := |GetMethodParamTypeNames(m).value|;
      var table := LocalVariableTable(m);
      && (r.Success? <==> table.None? || n == 0 || n + SlotOffset(m.accessFlags) <= |table.value.entryNames|)
      && (r.Failure? ==> r.error == ArrayIndexOutOfBounds)
      && (r.Success? ==> |r.value| == n)
      && (r.Success? && table.None? ==> forall i :: 0 <= i < n ==> r.value[i] == DecimalString(i))
      && (r.Success? && table.Some? ==> forall i :: 0 <= i < n ==>
            r.value[i] == table.value.entryNames[i + SlotOffset(m.accessFlags)])
  {
    var typeNames := GetMethodParamTypeNames(m);
    if typeNames.Failure? {
      return Failure(typeNames.error);
    }

    var localVarAttr: Option<LocalVariableAttribute> := None;
    if m.codeAttribute.Some? {
      localVarAttr := m.codeAttribute.value.localVariableTable;
    }

    var j := 0;
    if IsSynchronized(m.accessFlags) {
      j := j + 1;
    }
    if !IsStatic(m.accessFlags) {
      j := j + 1;
    }

    r := LookUpParamNames(|typeNames.value|, localVarAttr, j);
  }

  /** The binary name `Class.forName` is given for an internal name. */
  function BinaryName(internalName: string): (n: string)
    ensures |n| == |internalName| && '/' !in n
  {
    Replace(internalName, '/', '.')
  }

  /** `decodeFieldType`: the class a token stands for, chosen by its first
      character; `charAt(0)` throws on the empty token. */
  function DecodeFieldType(componentType: string, forName: Resolver): (r: Result<Option<ClassRef>, Throwable>)
    ensures |componentType| == 0 <==> r == Failure(StringIndexOutOfBounds)
    ensures r.Failure? && |componentType| > 0 ==>
      componentType[0] == 'L' && r.error == ClassNotFound(BinaryName(componentType[1..]))
  {
    if |componentType| == 0 then Failure(StringIndexOutOfBounds)
    else
      var typeTag := componentType[0];
      var fieldContent := componentType[1..];
      match typeTag
      case 'L' =>
        var name := BinaryName(fieldContent);
        (match forName(name)
         case None => Failure(ClassNotFound(name))
         case Some(c) => Success(Some(c)))
      case 'B' => Success(Some(BYTE_CLASS))
      case 'C' => Success(Some(CHARACTER_CLASS))
      case 'D' => Success(Some(DOUBLE_CLASS))
      case 'F' => Success(Some(FLOAT_CLASS))
      case 'I' => Success(Some(INTEGER_CLASS))
      case 'J' => Success(Some(LONG_CLASS))
      case 'S' => Success(Some(SHORT_CLASS))
      case 'Z' => Success(Some(BOOLEAN_CLASS))
      case '[' => Success(Some(ARRAYS_CLASS))
      case _ => Success(None)
  }

  /** A token `getMethodParamClasses` gets past: an empty one, which it
      skips, or one whose class can be found. */
  predicate Resolvable(token: string, forName: Resolver)
  {
    token == "" || DecodeFieldType(token, forName).Success?
  }

  /** The entry `getMethodParamClasses` stores for a token it gets past. */
  function ParamClass(token: string, forName: Resolver): Option<ClassRef>
    requires Resolvable(token, forName)
  {
    if token == "" then None else DecodeFieldType(token, forName).value
  }

  /** Token `k` is the first token whose class cannot be found. */
  predicate FirstUnresolved(tokens: seq<string>, forName: Resolver, k: int)
  {
    && 0 <= k < |tokens|
    && !Resolvable(tokens[k], forName)
    && forall i :: 0 <= i < k ==> Resolvable(tokens[i], forName)
  }

  /** The exception `getMethodParamClasses` throws for a class it cannot find. */
  function ClassNotFoundWrapped(className: string): Throwable
  {
    ClasspathAccess("Class could not be found: " + className, ClassNotFound(className))
  }

  /** The loop of `getMethodParamClasses` over the type tokens: one entry per
      token, null (None) for an empty token, else the decoded class; the
      first class that cannot be found aborts with `ClasspathAccessException`. */
  method DecodeParamClasses(classNames: seq<string>, forName: Resolver)
    returns (r: Result<seq<Option<ClassRef>>, Throwable>)
    ensures r.Success? <==> forall k :: 0 <= k < |classNames| ==> Resolvable(classNames[k], forName)
    ensures r.Success? ==> |r.value| == |classNames|
    ensures r.Success? ==> forall k :: 0 <= k < |classNames| ==> r.value[k] == ParamClass(classNames[k], forName)
    ensures r.Failure? ==>
      exists k :: (FirstUnresolved(classNames, forName, k)
                   && r.error == ClassNotFoundWrapped(BinaryName(classNames[k][1..])))
  {
    var retArray := new Option<ClassRef>[|classNames|](_ => None);

    for i := 0 to |classNames|
      invariant forall k :: 0 <= k < i ==> Resolvable(classNames[k], forName)
      invariant forall k :: 0 <= k < i ==> retArray[k] == ParamClass(classNames[k], forName)
      invariant forall k :: i <= k < retArray.Length ==> retArray[k] == None
    {
      if classNames[i] != "" {
        var decoded := DecodeFieldType(classNames[i], forName);
        if decoded.Failure? {
          assert FirstUnresolved(classNames, forName, i);
          return Failure(ClassNotFoundWrapped(decoded.error.className));
        }
        retArray[i] := decoded.value;
      }
    }
    return Success(retArray[..]);
  }

  /** `getMethodParamClasses`: the classes of the type tokens, or the
      exception of `getMethodParamTypeNames`. */
  method GetMethodParamClasses(m: MethodInfo, forName: Resolver) returns (r: Result<seq<Option<ClassRef>>, Throwable>)
    ensures GetMethodParamTypeNames(m).Failure? ==> r == Failure(GetMethodParamTypeNames(m).error)
    ensures GetMethodParamTypeNames(m).Success? ==>
      var tokens := GetMethodParamTypeNames(m).value;
      && (r.Success? <==> forall k :: 0 <= k < |tokens| ==> Resolvable(tokens[k], forName))
      && (r.Success? ==> |r.value| == |tokens|)
      && (r.Success? ==> forall k :: 0 <= k < |tokens| ==> r.value[k] == ParamClass(tokens[k], forName))
      && (r.Failure? ==>
            exists k :: (FirstUnresolved(tokens, forName, k)
                         && r.error == ClassNotFoundWrapped(BinaryName(tokens[k][1..]))))
  {
    var typeNames := GetMethodParamTypeNames(m);
    if typeNames.Failure? {
      return Failure(typeNames.error);
    }
    r := DecodeParamClasses(typeNames.value, forName);
  }
}
