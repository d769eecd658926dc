/**
 * What the validator learns about a bean through reflection, made explicit: the runtime
 * class with its superclass chain, the declared fields of each class with their modifiers and
 * annotations, and the bean's current field values.
 */
module Reflection {
  import opened Wrappers
  import opened Annotations

  /** A field value as the length rule distinguishes it. */
  datatype Value =
    | Null
    | Str(chars: string)     // a CharSequence
    | Num(n: int)            // an integral Number (Integer, Long, Short, Byte, BigInteger)
    | Arr(length: nat)       // an array
    | Coll(size: nat)        // a Collection
    | MapV(size: nat)        // a Map
    | Other(text: string)    // anything else, with the text of its toString()

  /** java.lang.reflect.Field, with the annotations the validator reads. */
  datatype FieldDecl = FieldDecl(
    declaringClass: string,
    name: string,
    isStatic: bool,
    lengthAnnotation: Option<ExcelFieldLength>,
    property: Option<ExcelProperty>)

  /** A class: java.lang.Object, or a class with its declared fields (in declaration order) and
      its superclass (None where getSuperclass() returns null). */
  datatype JClass =
    | ObjectClass
    | UserClass(name: string, declaredFields: seq<FieldDecl>, superclass: Option<JClass>)

  /** A field is identified by its declaring class and its name, as Field.equals does, so a
      field and the one it shadows in a superclass are different fields. */
  function KeyOf(f: FieldDecl): (key: (string, string)) {
    (f.declaringClass, f.name)
  }

  /** A non-null bean: its runtime class and the values of the fields the host lets us read.
      A field whose key is missing is one that Field.get refuses (IllegalAccessException). */
  datatype Bean = Bean(cls: JClass, state: map<(string, string), Value>)
}
