/** How the descriptor helper's results relate to the descriptors of the Java
    Virtual Machine Specification: where they agree (every parameter is an
    object type or an array, so each one ends with ';') and where the
    helper's shortcuts show (adjacent base types share one token, '[' gives
    `java.util.Arrays`, a synchronized method is shifted by one more entry). */
module DescriptorConformance {
  import opened Results
  import opened JavaLang
  import opened JavaSplit
  import opened Descriptors
  import opened JavassistMethodInfoHelper

  /** The wrapper class of each primitive type. */
  function BoxedClass(b: BaseType): ClassRef
  {
    match b
    case Byte => ClassRef("java.lang.Byte")
    case Char => ClassRef("java.lang.Character")
    case Double => ClassRef("java.lang.Double")
    case Float => ClassRef("java.lang.Float")
    case Int => ClassRef("java.lang.Integer")
    case Long => ClassRef("java.lang.Long")
    case Short => ClassRef("java.lang.Short")
    case Boolean => ClassRef("java.lang.Boolean")
  }

  /** A token whose first character is the tag of a base type decodes to that
      type's wrapper class, whatever follows the tag. */
  lemma DecodeBaseTag(b: BaseType, rest: string, forName: Resolver)
    ensures DecodeFieldType([BaseTag(b)] + rest, forName) == Success(Some(BoxedClass(b)))
  {
  }

  /** Every token starting with '[' decodes to `java.util.Arrays`, whatever
      the component type. */
  lemma DecodeArrayTag(rest: string, forName: Resolver)
    ensures DecodeFieldType("[" + rest, forName) == Success(Some(ARRAYS_CLASS))
  {
  }

  /** A token starting with 'L' asks the class loader for the rest of the
      token, with '/' turned into '.', and fails exactly when it is not found. */
  lemma DecodeObjectTag(rest: string, forName: Resolver)
    ensures DecodeFieldType("L" + rest, forName) ==
      match forName(BinaryName(rest))
      case None => Failure(ClassNotFound(BinaryName(rest)))
      case Some(c) => Success(Some(c))
  {
    assert ("L" + rest)[1..] == rest;
  }

  /** Any other first character decodes to null. */
  lemma DecodeOtherTag(t: string, forName: Resolver)
    requires |t| > 0 && t[0] != 'L' && t[0] != '['
    requires forall b: BaseType :: t[0] != BaseTag(b)
    ensures DecodeFieldType(t, forName) == Success(None)
  {
    assert t[0] != BaseTag(Byte) && t[0] != BaseTag(Char) && t[0] != BaseTag(Double);
    assert t[0] != BaseTag(Float) && t[0] != BaseTag(Int) && t[0] != BaseTag(Long);
    assert t[0] != BaseTag(Short) && t[0] != BaseTag(Boolean);
  }

  /** Apart from the class-loader case, only the first character matters. */
  lemma DecodeIgnoresRest(t1: string, t2: string, forName: Resolver)
    requires |t1| > 0 && |t2| > 0 && t1[0] == t2[0] && t1[0] != 'L'
    ensures DecodeFieldType(t1, forName) == DecodeFieldType(t2, forName)
  {
  }

  /** The descriptor of a parameter that ends with ';', without that ';'. */
  function Stripped(t: FieldType): (s: string)
    requires ReferenceTerminated(t)
  {
    var e := EncodeField(t);
    e[..|e| - 1]
  }

  function StrippedAll(ps: seq<FieldType>): (r: seq<string>)
    requires forall k :: 0 <= k < |ps| ==> ReferenceTerminated(ps[k])
    ensures |r| == |ps|
  {
    seq(|ps|, k requires 0 <= k < |ps| => Stripped(ps[k]))
  }

  lemma {:induction false} TerminatedEncoding(t: FieldType)
    requires ReferenceTerminated(t)
    ensures EncodeField(t) == Stripped(t) + ";"
    ensures |Stripped(t)| >= 1 && (Stripped(t)[0] == 'L' || Stripped(t)[0] == '[')
    ensures WellFormed(t) ==> ';' !in Stripped(t)
  {
    match t
    case Object(n) =>
      assert Stripped(t) == "L" + n;
    case ArrayOf(c) =>
      TerminatedEncoding(c);
      assert EncodeField(t) == "[" + Stripped(c) + ";";
      assert Stripped(t) == "[" + Stripped(c);
  }

  /** No ')' appears in a field descriptor whose class names avoid it. */
  lemma {:induction false} EncodeFieldAvoidsParen(t: FieldType)
    requires NamesAvoid(t, ')')
    ensures ')' !in EncodeField(t)
  {
    match t
    case Base(b) =>
    case Object(n) =>
    case ArrayOf(c) =>
      EncodeFieldAvoidsParen(c);
  }

  /** One more reference parameter adds its stripped token. */
  lemma StrippedAllSnoc(init: seq<FieldType>, last: FieldType)
    requires forall k :: 0 <= k < |init| ==> ReferenceTerminated(init[k])
    requires ReferenceTerminated(last)
    ensures StrippedAll(init + [last]) == StrippedAll(init) + [Stripped(last)]
  {
  }

  /** One more parameter adds its descriptor at the end. */
  lemma EncodeParamsSnoc(init: seq<FieldType>, last: FieldType)
    ensures EncodeParams(init + [last]) == EncodeParams(init) + EncodeField(last)
  {
    assert (init + [last])[..|init|] == init;
  }

  /** A list of such parameters is the ';'-join of their tokens, plus ';'. */
  lemma {:induction false} EncodeParamsJoin(ps: seq<FieldType>)
    requires |ps| >= 1
    requires forall k :: 0 <= k < |ps| ==> ReferenceTerminated(ps[k])
    ensures EncodeParams(ps) == Join(StrippedAll(ps), ';') + ";"
  {
    var n := |ps|;
    var init, last := ps[..n - 1], ps[n - 1];
    assert ps == init + [last];
    TerminatedEncoding(last);
    EncodeParamsSnoc(init, last);
    StrippedAllSnoc(init, last);
    if n == 1 {
      assert init == [];
    } else {
      EncodeParamsJoin(init);
      var j, t := Join(StrippedAll(init), ';'), Stripped(last);
      JoinSnoc(StrippedAll(init), t, ';');
      assert (j + ";") + (t + ";") == (j + [';'] + t) + ";";
    }
  }

  /** The text between an opening '(' and the last ')', which may be
      preceded by other ')' characters. */
  lemma ParamsTextOfShape(p: string, rd: string)
    requires ')' !in rd
    ensures ParamsText("(" + p + ")" + rd) == Success(p)
  {
    var open := "(" + p;
    var desc := open + [')'] + rd;
    assert "(" + p + ")" + rd == desc;
    IndexOfAt(desc, '(', 0);
    LastSeparatorOfJoin(open, ')', rd);
    assert desc[1..|p| + 1] == open[1..] == p;
  }

  /** The helper's parameter text of an encoded descriptor is exactly the
      parameter part, provided no class name of the return type holds ')'. */
  lemma ParamsTextOfEncoded(ps: seq<FieldType>, ret: ReturnDescriptor)
    requires ret.Returns? ==> NamesAvoid(ret.fieldType, ')')
    ensures ParamsText(EncodeMethod(ps, ret)) == Success(EncodeParams(ps))
  {
    if ret.Returns? {
      EncodeFieldAvoidsParen(ret.fieldType);
    }
    ParamsTextOfShape(EncodeParams(ps), EncodeReturn(ret));
  }

  /** Splitting the parameter part at ';' gives one stripped descriptor per parameter. */
  lemma SplitEncodedParams(ps: seq<FieldType>)
    requires |ps| >= 1
    requires forall k :: 0 <= k < |ps| ==> ReferenceTerminated(ps[k]) && WellFormed(ps[k])
    ensures Split(EncodeParams(ps), ';') == StrippedAll(ps)
  {
    EncodeParamsJoin(ps);
    var xs := StrippedAll(ps);
    forall k | 0 <= k < |xs|
      ensures ';' !in xs[k]
    {
      TerminatedEncoding(ps[k]);
    }
    TerminatedEncoding(ps[|ps| - 1]);
    SplitOfTerminated(xs, ';');
  }

  /** The descriptor of a method whose parameters are object types or arrays
      (with no ')' in a class name of the return type) is split into exactly
      one token per parameter: its descriptor without the closing ';'. */
  lemma TokensOfReferenceParameters(
    ps: seq<FieldType>, ret: ReturnDescriptor, flags: bv16, code: Option<CodeAttribute>)
    requires forall k :: 0 <= k < |ps| ==> ReferenceTerminated(ps[k]) && WellFormed(ps[k])
    requires ret.Returns? ==> NamesAvoid(ret.fieldType, ')')
    ensures GetMethodParamTypeNames(MethodInfo(EncodeMethod(ps, ret), flags, code)) == Success(StrippedAll(ps))
  {
    ParamsTextOfEncoded(ps, ret);
    if ps == [] {
      assert EncodeParams(ps) == "";
    } else {
      TerminatedEncoding(ps[0]);
      assert EncodeParams(ps) != "" by {
        EncodeParamsJoin(ps);
      }
      SplitEncodedParams(ps);
    }
  }

  /** The stripped token of an object type asks the class loader for its
      binary name; that of an array type gives `java.util.Arrays`. */
  lemma DecodeStripped(t: FieldType, forName: Resolver)
    requires ReferenceTerminated(t)
    ensures t.Object? ==>
      (DecodeFieldType(Stripped(t), forName) ==
       match forName(BinaryName(t.className))
       case None => Failure(ClassNotFound(BinaryName(t.className)))
       case Some(c) => Success(Some(c)))
    ensures t.ArrayOf? ==> DecodeFieldType(Stripped(t), forName) == Success(Some(ARRAYS_CLASS))
  {
    TerminatedEncoding(t);
    if t.Object? {
      DecodeObjectTag(t.className, forName);
      assert Stripped(t) == "L" + t.className;
    }
  }

  /** A single `String` parameter gives the one token "Ljava/lang/String",
      without its ';'. */
  lemma StringParameterToken(flags: bv16, code: Option<CodeAttribute>)
    ensures GetMethodParamTypeNames(MethodInfo("(Ljava/lang/String;)V", flags, code)) == Success(["Ljava/lang/String"])
  {
    var token := "Ljava/lang/String";
    var params := token + ";";
    assert ';' !in token && ')' !in params;
    assert "(Ljava/lang/String;)V" == "(" + params + ")" + "V";
    calc {
      GetMethodParamTypeNames(MethodInfo("(" + params + ")" + "V", flags, code));
    == { ParamsTextOfShape(params, "V"); }
      Success(Split(params, ';'));
    == { assert Join([token], ';') + [';'] == params; SplitOfTerminated([token], ';'); }
      Success([token]);
    }
  }

  /** A method without parameters has no tokens. */
  lemma NoParameterTokens(ret: ReturnDescriptor, flags: bv16, code: Option<CodeAttribute>)
    requires ret.Returns? ==> NamesAvoid(ret.fieldType, ')')
    ensures GetMethodParamTypeNames(MethodInfo(EncodeMethod([], ret), flags, code)) == Success([])
  {
    TokensOfReferenceParameters([], ret, flags, code);
  }

  /** Two `int` parameters are written "(II)V" by the JVM specification. */
  lemma TwoIntsDescriptor()
    ensures EncodeMethod([Base(Int), Base(Int)], Void) == "(II)V"
  {
    assert EncodeParams([Base(Int)]) == "I" by {
      assert [Base(Int)][..0] == [];
    }
    assert EncodeParams([Base(Int), Base(Int)]) == "II" by {
      assert [Base(Int), Base(Int)][..1] == [Base(Int)];
    }
  }

  /** Two `int` parameters, which the JVM specification lists separately, come
      out as the single token "II". */
  lemma AdjacentBaseTypesShareAToken(flags: bv16, code: Option<CodeAttribute>)
    ensures GetMethodParamTypeNames(MethodInfo("(II)V", flags, code)) == Success(["II"])
  {
    assert "(II)V" == "(" + "II" + ")" + "V";
    assert ';' !in "II" && ')' !in "II";
    ParamsTextOfShape("II", "V");
  }

  /** The JVM specification allows ')' in a class name. One in the return
      type moves the helper's end of the parameter text into the return
      descriptor: the text runs on to the last ')'. */
  lemma ParenInReturnClassName(ps: seq<FieldType>, before: string, after: string)
    requires ')' !in after
    ensures ParamsText(EncodeMethod(ps, Returns(Object(before + ")" + after)))) ==
      Success(EncodeParams(ps) + ")L" + before)
  {
    var p := EncodeParams(ps) + ")L" + before;
    assert EncodeMethod(ps, Returns(Object(before + ")" + after))) == "(" + p + ")" + (after + ";");
    ParamsTextOfShape(p, after + ";");
  }

  /** `(La;)Lb)c;`, a grammatical descriptor of one parameter of class `a`
      returning class `b)c`, gives the two tokens "La" and ")Lb". */
  lemma ParenInReturnClassNameTokens(flags: bv16, code: Option<CodeAttribute>)
    ensures GetMethodParamTypeNames(MethodInfo("(La;)Lb)c;", flags, code)) == Success(["La", ")Lb"])
  {
    var text := "La;)Lb";
    assert "(La;)Lb)c;" == "(" + text + ")" + "c;";
    calc {
      GetMethodParamTypeNames(MethodInfo("(" + text + ")" + "c;", flags, code));
    == { ParamsTextOfShape(text, "c;"); }
      Success(Split(text, ';'));
    == { UnterminatedTokens(); }
      Success(["La", ")Lb"]);
    }
  }

  /** The example's parameter text keeps its two pieces. */
  lemma UnterminatedTokens()
    ensures Split("La;)Lb", ';') == ["La", ")Lb"]
  {
    var text := "La;)Lb";
    assert text[..2] == "La" && text[3..] == ")Lb" && text[2] == ';';
    LastIndexOfAt(text, ';', 2);
    assert ';' !in "La";
    assert Pieces(text, ';') == Pieces("La", ';') + [")Lb"];
  }

  /** The first parameter slot of the JVM specification (section 2.6.1): 0 for a
      static method, 1 after `this` otherwise. */
  function JvmsFirstParameterSlot(flags: bv16): nat
  {
    if IsStatic(flags) then 0 else 1
  }

  /** The helper's name offset is the JVM specification's first parameter slot,
      plus one more for a synchronized method. */
  lemma SlotOffsetVersusJvms(flags: bv16)
    ensures SlotOffset(flags) == JvmsFirstParameterSlot(flags) + (if IsSynchronized(flags) then 1 else 0)
    ensures IsSynchronized(flags) ==> SlotOffset(flags) != JvmsFirstParameterSlot(flags)
  {
  }
}
