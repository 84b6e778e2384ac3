/** Field and method descriptors as the Java Virtual Machine Specification
    defines them (section 4.3.2 "Field Descriptors", table 4.3-A, and section
    4.3.3 "Method Descriptors"). This is the reference the descriptor helper
    is compared against; the helper itself does not use it. */
module Descriptors {

  /** The base types of table 4.3-A. */
  datatype BaseType = Byte | Char | Double | Float | Int | Long | Short | Boolean

  /** FieldType: BaseType | ObjectType | ArrayType. `className` is the binary
      name in internal form, with '/' between the package segments. */
  datatype FieldType =
    | Base(base: BaseType)
    | Object(className: string)
    | ArrayOf(component: FieldType)

  /** ReturnDescriptor: FieldType | VoidDescriptor. */
  datatype ReturnDescriptor = Void | Returns(fieldType: FieldType)

  /** The tag character of each base type (table 4.3-A). */
  function BaseTag(b: BaseType): char
  {
    match b
    case Byte => 'B'
    case Char => 'C'
    case Double => 'D'
    case Float => 'F'
    case Int => 'I'
    case Long => 'J'
    case Short => 'S'
    case Boolean => 'Z'
  }

  /** A class name in internal form is not empty and contains none of the
      characters the JVM specification reserves in it ('.', ';', '['). */
  predicate ValidClassName(n: string)
  {
    n != [] && '.' !in n && ';' !in n && '[' !in n
  }

  predicate WellFormed(t: FieldType)
  {
    match t
    case Base(_) => true
    case Object(n) => ValidClassName(n)
    case ArrayOf(c) => WellFormed(c)
  }

  function EncodeField(t: FieldType): (s: string)
    ensures |s| >= 1
  {
    match t
    case Base(b) => [BaseTag(b)]
    case Object(n) => "L" + n + ";"
    case ArrayOf(c) => "[" + EncodeField(c)
  }

  function EncodeReturn(r: ReturnDescriptor): (s: string)
    ensures |s| >= 1
  {
    match r
    case Void => "V"
    case Returns(t) => EncodeField(t)
  }

  /** The parameter descriptors written one after another, with no separator. */
  function EncodeParams(ps: seq<FieldType>): string
  {
    if ps == [] then "" else EncodeParams(ps[..|ps| - 1]) + EncodeField(ps[|ps| - 1])
  }

  /** MethodDescriptor: ( {ParameterDescriptor} ) ReturnDescriptor. */
  function EncodeMethod(ps: seq<FieldType>, r: ReturnDescriptor): string
  {
    "(" + EncodeParams(ps) + ")" + EncodeReturn(r)
  }

  /** The field types whose descriptor ends with ';': object types and arrays of them. */
  predicate ReferenceTerminated(t: FieldType)
  {
    match t
    case Base(_) => false
    case Object(_) => true
    case ArrayOf(c) => ReferenceTerminated(c)
  }

  /** No character of `c` occurs in a class name anywhere inside `t`. */
  predicate NamesAvoid(t: FieldType, c: char)
  {
    match t
    case Base(_) => true
    case Object(n) => c !in n
    case ArrayOf(e) => NamesAvoid(e, c)
  }
}
