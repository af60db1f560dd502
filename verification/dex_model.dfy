/**
  The decoded dex file as the stubber sees it: classes, fields and methods as
  immutable records, with access flags as the 32-bit word the format stores.
 */
module DexModel {
  import opened Results
  import opened Dalvik

  const AccStatic: bv32 := 0x8
  const AccNative: bv32 := 0x100
  const AccAbstract: bv32 := 0x400

  /** An access flag is set when its bit is. */
  predicate IsSet(flag: bv32, accessFlags: bv32) {
    accessFlags & flag != 0
  }

  predicate IsStatic(accessFlags: bv32) {
    IsSet(AccStatic, accessFlags)
  }

  /** Abstract and native methods have no body of their own. */
  predicate IsAbstractOrNative(accessFlags: bv32) {
    IsSet(AccAbstract, accessFlags) || IsSet(AccNative, accessFlags)
  }

  datatype Annotation = Annotation(visibility: nat, annotationType: string)

  /** A hidden-API restriction, by the name the format gives it. */
  datatype HiddenApiRestriction = HiddenApiRestriction(name: string)

  datatype MethodParameter = MethodParameter(
    parameterType: string,
    name: Option<string>,
    annotations: set<Annotation>)

  datatype Method = Method(
    definingClass: string,
    name: string,
    parameters: seq<MethodParameter>,
    returnType: string,
    accessFlags: bv32,
    annotations: set<Annotation>,
    hiddenApiRestrictions: set<HiddenApiRestriction>,
    implementation: Option<MethodImplementation>)

  datatype Field = Field(
    definingClass: string,
    name: string,
    fieldType: string,
    accessFlags: bv32,
    annotations: set<Annotation>)

  datatype ClassDef = ClassDef(
    classType: string,
    accessFlags: bv32,
    superclass: Option<string>,
    interfaces: seq<string>,
    sourceFile: Option<string>,
    annotations: set<Annotation>,
    fields: seq<Field>,
    methods: seq<Method>)
}
