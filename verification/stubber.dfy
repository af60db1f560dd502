/**
  Stub-body synthesis (DexStubber.getMethodImplementation): the return
  descriptor picks one of four stub shapes or fails with "Unknown return type";
  the shape fixes the instructions, and the shape, static flag and parameter
  count fix the register count.
 */
module Stubber {
  import opened Results
  import opened Dalvik
  import opened Descriptors

  /** The closed set of stub bodies. */
  datatype Shape = VoidReturn | ZeroPrimitive | ZeroWidePrimitive | NullReference

  /** The exception thrown for a return type no case matches. Its message is
      the constant "Unknown return type" and carries no other context. */
  datatype StubError = UnknownReturnType

  /** The switch labels that yield a single-register zero. */
  const NarrowReturnTypes: set<string> := {"Z", "B", "S", "C", "F", "I"}

  /** The switch labels that yield a register-pair zero. */
  const WideReturnTypes: set<string> := {"J", "D"}

  predicate StartsWith(s: string, c: char) {
    |s| > 0 && s[0] == c
  }

  predicate EndsWith(s: string, c: char) {
    |s| > 0 && s[|s| - 1] == c
  }

  /** The switch over the return type, with the `[`-prefix / `;`-suffix test
      of its default branch. */
  function Classify(returnType: string): Result<Shape, StubError> {
    if returnType == "V" then Success(VoidReturn)
    else if returnType in NarrowReturnTypes then Success(ZeroPrimitive)
    else if returnType in WideReturnTypes then Success(ZeroWidePrimitive)
    else if StartsWith(returnType, '[') || EndsWith(returnType, ';') then Success(NullReference)
    else Failure(UnknownReturnType)
  }

  /** The registers a receiver takes: none for a static method, one otherwise. */
  function ReceiverRegisters(isStatic: bool): nat {
    if isStatic then 0 else 1
  }

  /** The scratch registers a shape loads its constant into. */
  function Scratch(shape: Shape): nat {
    match shape
    case VoidReturn => 0
    case ZeroPrimitive => 1
    case ZeroWidePrimitive => 2
    case NullReference => 1
  }

  /** The return instruction's kind a shape must end in. */
  function KindOf(shape: Shape): ReturnKind {
    match shape
    case VoidReturn => VoidKind
    case ZeroPrimitive => NarrowKind
    case ZeroWidePrimitive => WideKind
    case NullReference => ReferenceKind
  }

  /** The shape the standard descriptor categories call for. */
  function ShapeFor(c: Category): Shape {
    match c
    case VoidType => VoidReturn
    case NarrowPrimitive => ZeroPrimitive
    case WidePrimitive => ZeroWidePrimitive
    case Reference => NullReference
  }

  /** Builds the body for a shape. The register count starts at the receiver
      count; a non-void shape overwrites it with 2 or 3 whatever the static
      flag; the parameter count is then added. The constant always goes to v0. */
  function Build(shape: Shape, isStatic: bool, paramCount: nat): (body: MethodImplementation)
    ensures AllWellFormed(body.instructions)
    ensures RegistersInRange(body)
    ensures forall i, r :: 0 <= i < |body.instructions| && r in Touched(body.instructions[i]) ==> r < Scratch(shape)
    ensures body.registerCount >= ReceiverRegisters(isStatic) + paramCount + Scratch(shape)
    ensures body.tryBlocks == [] && body.debugItems == []
  {
    match shape
    case VoidReturn =>
      MethodImplementation(ReceiverRegisters(isStatic) + paramCount, [Insn10x(ReturnVoid)], [], [])
    case ZeroPrimitive =>
      MethodImplementation(2 + paramCount, [Insn11n(Const4, 0, 0), Insn11x(Return, 0)], [], [])
    case ZeroWidePrimitive =>
      MethodImplementation(3 + paramCount, [Insn21s(ConstWide16, 0, 0), Insn11x(ReturnWide, 0)], [], [])
    case NullReference =>
      MethodImplementation(2 + paramCount, [Insn11n(Const4, 0, 0), Insn11x(ReturnObject, 0)], [], [])
  }

  /** getMethodImplementation on a method with the given return type, static
      flag and parameter count. */
  function Synthesize(returnType: string, isStatic: bool, paramCount: nat): (r: Result<MethodImplementation, StubError>)
    ensures r.Failure? <==> Classify(returnType).Failure?
    ensures r.Failure? ==> r.error == UnknownReturnType
    ensures r.Success? ==>
      && AllWellFormed(r.value.instructions)
      && RegistersInRange(r.value)
      && r.value.registerCount >= ReceiverRegisters(isStatic) + paramCount + Scratch(Classify(returnType).value)
      && r.value.tryBlocks == [] && r.value.debugItems == []
  {
    var shape :- Classify(returnType);
    Success(Build(shape, isStatic, paramCount))
  }

  /** The five outcomes of synthesis, one per descriptor class, with the exact
      instruction lists and register counts. */
  lemma SynthesizedShapes(returnType: string, isStatic: bool, paramCount: nat)
    ensures returnType == "V" ==>
      Synthesize(returnType, isStatic, paramCount)
      == Success(MethodImplementation(ReceiverRegisters(isStatic) + paramCount, [Insn10x(ReturnVoid)], [], []))
    ensures returnType in NarrowReturnTypes ==>
      Synthesize(returnType, isStatic, paramCount)
      == Success(MethodImplementation(2 + paramCount, [Insn11n(Const4, 0, 0), Insn11x(Return, 0)], [], []))
    ensures returnType in WideReturnTypes ==>
      Synthesize(returnType, isStatic, paramCount)
      == Success(MethodImplementation(3 + paramCount, [Insn21s(ConstWide16, 0, 0), Insn11x(ReturnWide, 0)], [], []))
    ensures returnType != "V" && returnType !in NarrowReturnTypes && returnType !in WideReturnTypes
            && (StartsWith(returnType, '[') || EndsWith(returnType, ';')) ==>
      Synthesize(returnType, isStatic, paramCount)
      == Success(MethodImplementation(2 + paramCount, [Insn11n(Const4, 0, 0), Insn11x(ReturnObject, 0)], [], []))
    ensures Synthesize(returnType, isStatic, paramCount).Failure? <==>
      && returnType != "V" && returnType !in NarrowReturnTypes && returnType !in WideReturnTypes
      && !StartsWith(returnType, '[') && !EndsWith(returnType, ';')
  {
  }

  /** Which branch is taken and the instructions emitted depend on the return
      type alone. A static flag changes the register count of a void stub
      only, and each parameter adds exactly one register. */
  lemma SynthesisDependsOnlyOnDescriptor(returnType: string, s1: bool, n1: nat, s2: bool, n2: nat)
    ensures Synthesize(returnType, s1, n1).Success? == Synthesize(returnType, s2, n2).Success?
    ensures Synthesize(returnType, s1, n1).Success? ==>
      && Synthesize(returnType, s1, n1).value.instructions == Synthesize(returnType, s2, n2).value.instructions
      && (returnType != "V" || s1 == s2 ==>
            Synthesize(returnType, s1, n1).value.registerCount - n1
            == Synthesize(returnType, s2, n2).value.registerCount - n2)
  {
  }

  /** Every standard return descriptor is accepted, and the shape is the one
      its category calls for. */
  lemma ClassifyAcceptsEveryDescriptor(d: string)
    requires IsReturnDescriptor(d)
    ensures Classify(d) == Success(ShapeFor(CategoryOf(d)))
  {
    if d == "V" {
    } else if |d| == 1 {
      assert IsPrimitiveLetter(d[0]);
      assert d == [d[0]];
      if d[0] == 'J' || d[0] == 'D' {
        assert d in WideReturnTypes;
      } else {
        assert d in NarrowReturnTypes;
      }
    } else {
      assert d !in NarrowReturnTypes && d !in WideReturnTypes;
      assert d[0] == '[' || (d[0] == 'L' && d[|d| - 1] == ';');
    }
  }

  /** The default branch's test is looser than the grammar: `X;` and a lone
      `[` are stubbed as references, while the empty string, an unknown
      letter and a doubled letter are rejected. */
  lemma ClassifyBoundaries()
    ensures !IsReturnDescriptor("X;") && Classify("X;") == Success(NullReference)
    ensures !IsReturnDescriptor("[") && Classify("[") == Success(NullReference)
    ensures Classify("") == Failure(UnknownReturnType)
    ensures Classify("X") == Failure(UnknownReturnType)
    ensures Classify("II") == Failure(UnknownReturnType)
    ensures Classify("L") == Failure(UnknownReturnType)
  {
    assert "II" !in NarrowReturnTypes;
  }

  /** Run from any register contents, a synthesized body ends in the return
      instruction its shape calls for and hands back zero (null for a
      reference); it never faults. */
  lemma StubReturnsZero(returnType: string, isStatic: bool, paramCount: nat, regs: map<nat, int>)
    requires Synthesize(returnType, isStatic, paramCount).Success?
    ensures var body := Synthesize(returnType, isStatic, paramCount).value;
      Exec(body.instructions, regs, body.registerCount) == Returned(KindOf(Classify(returnType).value), 0)
  {
    var body := Synthesize(returnType, isStatic, paramCount).value;
    var code := body.instructions;
    match Classify(returnType).value
    case VoidReturn =>
    case ZeroPrimitive =>
      assert code[1..] == [Insn11x(Return, 0)];
    case NullReference =>
      assert code[1..] == [Insn11x(ReturnObject, 0)];
    case ZeroWidePrimitive =>
      assert code[1..] == [Insn11x(ReturnWide, 0)];
  }

  /** The stub of a method with a standard return descriptor returns the zero
      of exactly the register type the descriptor declares. */
  lemma StubHonoursReturnType(d: string, isStatic: bool, paramCount: nat, regs: map<nat, int>)
    requires IsReturnDescriptor(d)
    ensures Synthesize(d, isStatic, paramCount).Success?
    ensures var body := Synthesize(d, isStatic, paramCount).value;
      Exec(body.instructions, regs, body.registerCount) == Returned(KindOf(ShapeFor(CategoryOf(d))), 0)
  {
    ClassifyAcceptsEveryDescriptor(d);
    StubReturnsZero(d, isStatic, paramCount, regs);
  }
}
