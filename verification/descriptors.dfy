/**
  Type descriptors as the dex format writes them: `V`, the primitive letters
  `Z B S C I F J D`, `L<class name>;` and `[<component>`. This grammar is the
  reference the stubber's looser string tests are compared against.
 */
module Descriptors {

  /** The four categories a well-formed return descriptor falls into. */
  datatype Category = VoidType | NarrowPrimitive | WidePrimitive | Reference

  predicate IsPrimitiveLetter(c: char) {
    c in "ZBSCIFJD"
  }

  /** A field (non-void) type descriptor. The characters of a class name are
      only required to exclude `;`. */
  predicate IsFieldDescriptor(d: string)
    decreases |d|
  {
    if |d| == 1 then IsPrimitiveLetter(d[0])
    else if |d| >= 2 && d[0] == '[' then IsFieldDescriptor(d[1..])
    else |d| >= 3 && d[0] == 'L' && d[|d| - 1] == ';' && forall i :: 1 <= i < |d| - 1 ==> d[i] != ';'
  }

  predicate IsReturnDescriptor(d: string) {
    d == "V" || IsFieldDescriptor(d)
  }

  function CategoryOf(d: string): Category
    requires IsReturnDescriptor(d)
  {
    if d == "V" then VoidType
    else if d == "J" || d == "D" then WidePrimitive
    else if |d| == 1 then NarrowPrimitive
    else Reference
  }

  /** The number of registers a parameter of type `t` occupies: two for long
      and double, one for everything else. */
  function RegisterWidth(t: string): nat {
    if t == "J" || t == "D" then 2 else 1
  }
}
