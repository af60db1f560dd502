/**
  The per-method rewrite rule of DexStubber.main: every class is rebuilt with
  its metadata unchanged; abstract and native methods are left out of the
  rebuilt method set; every other method is rebuilt with its signature and
  access flags, no annotations, no hidden-API restrictions and a synthesized
  body. One synthesis failure aborts the whole rewrite.

  The register-count rule is a parameter: `CountParameters` is the source as
  written (the parameter term is the number of parameters), and
  `CountParameterRegisters` is the corrected rule (the registers the
  parameters occupy, two for long and double).
 */
module Rewrite {
  import opened Results
  import opened Dalvik
  import opened Descriptors
  import opened Stubber
  import opened DexModel

  datatype RegisterRule = CountParameters | CountParameterRegisters

  /** The registers a parameter list occupies (a method's ins, less the receiver). */
  function ParameterRegisters(ps: seq<MethodParameter>): nat
    decreases |ps|
  {
    if |ps| == 0 then 0 else RegisterWidth(ps[0].parameterType) + ParameterRegisters(ps[1..])
  }

  function ParameterTerm(ps: seq<MethodParameter>, rule: RegisterRule): nat {
    match rule
    case CountParameters => |ps|
    case CountParameterRegisters => ParameterRegisters(ps)
  }

  /** The body synthesized for a method. */
  function StubOf(m: Method, rule: RegisterRule): Result<MethodImplementation, StubError> {
    Synthesize(m.returnType, IsStatic(m.accessFlags), ParameterTerm(m.parameters, rule))
  }

  /** The rebuilt method record: the two arguments passed as null become empty sets. */
  function Restub(m: Method, body: MethodImplementation): Method {
    Method(m.definingClass, m.name, m.parameters, m.returnType, m.accessFlags, {}, {}, Some(body))
  }

  /** The inner loop over one class's methods. */
  function RewriteMethods(ms: seq<Method>, rule: RegisterRule): Result<seq<Method>, StubError>
    decreases |ms|
  {
    if |ms| == 0 then Success([])
    else if IsAbstractOrNative(ms[0].accessFlags) then RewriteMethods(ms[1..], rule)
    else
      match StubOf(ms[0], rule)
      case Failure(e) => Failure(e)
      case Success(body) =>
        match RewriteMethods(ms[1..], rule)
        case Failure(e) => Failure(e)
        case Success(rest) => Success([Restub(ms[0], body)] + rest)
  }

  /** One class rebuilt around its rewritten methods. */
  function RewriteClass(c: ClassDef, rule: RegisterRule): Result<ClassDef, StubError> {
    var methods :- RewriteMethods(c.methods, rule);
    Success(ClassDef(c.classType, c.accessFlags, c.superclass, c.interfaces, c.sourceFile,
                     c.annotations, c.fields, methods))
  }

  /** The outer loop over every class of the dex file. */
  function RewriteAll(cs: seq<ClassDef>, rule: RegisterRule): Result<seq<ClassDef>, StubError>
    decreases |cs|
  {
    if |cs| == 0 then Success([])
    else
      match RewriteClass(cs[0], rule)
      case Failure(e) => Failure(e)
      case Success(c) =>
        match RewriteAll(cs[1..], rule)
        case Failure(e) => Failure(e)
        case Success(rest) => Success([c] + rest)
  }

  /** `o` is the rebuilt form of the concrete method `m`: same defining class,
      name, parameters, return type and access flags, no annotations, no
      hidden-API restrictions, and the stub of `m` as its body. */
  ghost predicate RebuiltFrom(o: Method, m: Method, rule: RegisterRule) {
    && !IsAbstractOrNative(m.accessFlags)
    && o.definingClass == m.definingClass
    && o.name == m.name
    && o.parameters == m.parameters
    && o.returnType == m.returnType
    && o.accessFlags == m.accessFlags
    && o.annotations == {}
    && o.hiddenApiRestrictions == {}
    && StubOf(m, rule).Success?
    && o.implementation == Some(StubOf(m, rule).value)
  }

  /** The method loop succeeds exactly when every concrete method can be
      stubbed; then no abstract or native method survives, every output
      method is the rebuilt form of a concrete input method, and every
      concrete input method has its rebuilt form in the output. */
  lemma {:induction false} RewriteMethodsSpec(ms: seq<Method>, rule: RegisterRule)
    ensures RewriteMethods(ms, rule).Success? <==>
      forall m :: m in ms && !IsAbstractOrNative(m.accessFlags) ==> StubOf(m, rule).Success?
    ensures RewriteMethods(ms, rule).Failure? ==> RewriteMethods(ms, rule).error == UnknownReturnType
    ensures RewriteMethods(ms, rule).Success? ==>
      var out := RewriteMethods(ms, rule).value;
      && |out| <= |ms|
      && (forall o :: o in out ==> !IsAbstractOrNative(o.accessFlags))
      && (forall o :: o in out ==> exists m :: m in ms && RebuiltFrom(o, m, rule))
      && (forall m :: m in ms && !IsAbstractOrNative(m.accessFlags) ==> exists o :: o in out && RebuiltFrom(o, m, rule))
    decreases |ms|
  {
    if |ms| > 0 {
      var m0 := ms[0];
      var tail := ms[1..];
      RewriteMethodsSpec(tail, rule);
      assert forall m :: m in ms <==> m == m0 || m in tail;
      if !IsAbstractOrNative(m0.accessFlags) && StubOf(m0, rule).Success? && RewriteMethods(tail, rule).Success? {
        var out := RewriteMethods(ms, rule).value;
        var rest := RewriteMethods(tail, rule).value;
        var o0 := Restub(m0, StubOf(m0, rule).value);
        assert out == [o0] + rest;
        assert RebuiltFrom(o0, m0, rule);
        assert forall o :: o in out <==> o == o0 || o in rest;
      }
    }
  }

  /** A rebuilt class keeps type, access flags, superclass, interfaces, source
      file, annotations and fields verbatim, and carries the rewritten methods. */
  lemma RewriteClassKeepsMetadata(c: ClassDef, rule: RegisterRule)
    ensures RewriteClass(c, rule).Success? <==> RewriteMethods(c.methods, rule).Success?
    ensures RewriteClass(c, rule).Success? ==>
      var r := RewriteClass(c, rule).value;
      && r.classType == c.classType
      && r.accessFlags == c.accessFlags
      && r.superclass == c.superclass
      && r.interfaces == c.interfaces
      && r.sourceFile == c.sourceFile
      && r.annotations == c.annotations
      && r.fields == c.fields
      && r.methods == RewriteMethods(c.methods, rule).value
  {
  }

  /** All or nothing: the rewrite succeeds exactly when every class does, and
      then yields one rebuilt class per input class, in order. */
  lemma {:induction false} RewriteAllSpec(cs: seq<ClassDef>, rule: RegisterRule)
    ensures RewriteAll(cs, rule).Success? <==> forall i :: 0 <= i < |cs| ==> RewriteClass(cs[i], rule).Success?
    ensures RewriteAll(cs, rule).Success? ==>
      && |RewriteAll(cs, rule).value| == |cs|
      && forall i :: 0 <= i < |cs| ==> RewriteAll(cs, rule).value[i] == RewriteClass(cs[i], rule).value
    decreases |cs|
  {
    if |cs| > 0 {
      RewriteAllSpec(cs[1..], rule);
      if RewriteAll(cs, rule).Success? {
        var out := RewriteAll(cs, rule).value;
        assert forall i :: 1 <= i < |cs| ==> cs[i] == cs[1..][i - 1] && out[i] == out[1..][i - 1];
      } else if RewriteClass(cs[0], rule).Success? {
        var i :| 0 <= i < |cs[1..]| && RewriteClass(cs[1..][i], rule).Failure?;
        assert cs[1..][i] == cs[i + 1];
      }
    }
  }

  /** Stubbing an already stubbed method set changes nothing. */
  lemma {:induction false} RewriteMethodsIdempotent(ms: seq<Method>, rule: RegisterRule)
    requires RewriteMethods(ms, rule).Success?
    ensures RewriteMethods(RewriteMethods(ms, rule).value, rule) == RewriteMethods(ms, rule)
    decreases |ms|
  {
    if |ms| > 0 {
      RewriteMethodsIdempotent(ms[1..], rule);
      if !IsAbstractOrNative(ms[0].accessFlags) {
        var out := RewriteMethods(ms, rule).value;
        var o0 := Restub(ms[0], StubOf(ms[0], rule).value);
        assert StubOf(o0, rule) == StubOf(ms[0], rule);
        assert out[0] == o0 && out[1..] == RewriteMethods(ms[1..], rule).value;
      }
    }
  }

  /** The whole rewrite is a fixed point: run on its own output it returns
      that output unchanged. */
  lemma {:induction false} RewriteAllIdempotent(cs: seq<ClassDef>, rule: RegisterRule)
    requires RewriteAll(cs, rule).Success?
    ensures RewriteAll(RewriteAll(cs, rule).value, rule) == RewriteAll(cs, rule)
    decreases |cs|
  {
    if |cs| > 0 {
      RewriteAllIdempotent(cs[1..], rule);
      var c := RewriteClass(cs[0], rule).value;
      RewriteMethodsIdempotent(cs[0].methods, rule);
      assert RewriteClass(c, rule) == Success(c);
      var out := RewriteAll(cs, rule).value;
      assert out[0] == c && out[1..] == RewriteAll(cs[1..], rule).value;
    }
  }

  // ---------------------------------------------------------------------
  // The register frame. Dalvik passes a method's ins (the receiver, then the
  // parameters, long and double taking two registers each) in the LAST ins
  // registers of the frame; the registers below them are the locals.

  function InsSize(m: Method): nat {
    ReceiverRegisters(IsStatic(m.accessFlags)) + ParameterRegisters(m.parameters)
  }

  /** The frame is at least as large as the ins it must hold. */
  predicate FrameFits(body: MethodImplementation, m: Method) {
    body.registerCount >= InsSize(m)
  }

  /** Every register the body touches is a local, below the first in. */
  predicate TouchesOnlyLocals(body: MethodImplementation, m: Method) {
    forall i, r :: 0 <= i < |body.instructions| && r in Touched(body.instructions[i]) ==>
      r < body.registerCount - InsSize(m)
  }

  predicate AllNarrow(ps: seq<MethodParameter>) {
    forall i :: 0 <= i < |ps| ==> RegisterWidth(ps[i].parameterType) == 1
  }

  /** A parameter list occupies at least one register per parameter, and
      exactly one per parameter precisely when none is long or double. */
  lemma {:induction false} ParameterRegistersBounds(ps: seq<MethodParameter>)
    ensures ParameterRegisters(ps) >= |ps|
    ensures ParameterRegisters(ps) == |ps| <==> AllNarrow(ps)
    decreases |ps|
  {
    if |ps| > 0 {
      ParameterRegistersBounds(ps[1..]);
      assert forall i :: 1 <= i < |ps| ==> ps[i] == ps[1..][i - 1];
      if AllNarrow(ps[1..]) && RegisterWidth(ps[0].parameterType) == 1 {
        assert AllNarrow(ps);
      }
    }
  }

  /** With the corrected rule every stub fits its frame and keeps to the
      locals, whatever the parameter types. */
  lemma CorrectedStubFitsFrame(m: Method)
    requires StubOf(m, CountParameterRegisters).Success?
    ensures FrameFits(StubOf(m, CountParameterRegisters).value, m)
    ensures TouchesOnlyLocals(StubOf(m, CountParameterRegisters).value, m)
  {
  }

  /** As written, a stub fits its frame and keeps to the locals when no
      parameter is long or double. */
  lemma AsWrittenFitsWithNarrowParameters(m: Method)
    requires AllNarrow(m.parameters)
    requires StubOf(m, CountParameters).Success?
    ensures FrameFits(StubOf(m, CountParameters).value, m)
    ensures TouchesOnlyLocals(StubOf(m, CountParameters).value, m)
  {
    ParameterRegistersBounds(m.parameters);
  }

  /** As written, a void stub fits its frame exactly when no parameter is
      long or double. */
  lemma AsWrittenVoidFitsIffNarrow(m: Method)
    requires m.returnType == "V"
    ensures StubOf(m, CountParameters).Success?
    ensures FrameFits(StubOf(m, CountParameters).value, m) <==> AllNarrow(m.parameters)
  {
    ParameterRegistersBounds(m.parameters);
  }

  /** Two methods on which the rule as written misjudges the frame.
      `static void f(long)` gets a one-register frame for its two-register
      argument, fewer registers than its ins: a frame the dex format rejects.
      The instance method `int g(long)` gets a frame with no locals, so its
      constant lands in the receiver's register; Dalvik lets a method write
      its own ins, so this body is still legal, but it breaks the layout
      `TouchesOnlyLocals` states. The corrected rule gives both a local. */
  lemma WideParameterUndercount()
    ensures var f := Method("LA;", "f", [MethodParameter("J", None, {})], "V", AccStatic, {}, {}, None);
      && StubOf(f, CountParameters) == Success(MethodImplementation(1, [Insn10x(ReturnVoid)], [], []))
      && InsSize(f) == 2
      && !FrameFits(StubOf(f, CountParameters).value, f)
      && FrameFits(StubOf(f, CountParameterRegisters).value, f)
    ensures var g := Method("LA;", "g", [MethodParameter("J", None, {})], "I", 0, {}, {}, None);
      && StubOf(g, CountParameters) == Success(MethodImplementation(3, [Insn11n(Const4, 0, 0), Insn11x(Return, 0)], [], []))
      && InsSize(g) == 3
      && !TouchesOnlyLocals(StubOf(g, CountParameters).value, g)
      && TouchesOnlyLocals(StubOf(g, CountParameterRegisters).value, g)
  {
    var f := Method("LA;", "f", [MethodParameter("J", None, {})], "V", AccStatic, {}, {}, None);
    assert ParameterRegisters(f.parameters) == 2;
    var g := Method("LA;", "g", [MethodParameter("J", None, {})], "I", 0, {}, {}, None);
    assert ParameterRegisters(g.parameters) == 2;
    assert 0 in Touched(StubOf(g, CountParameters).value.instructions[0]);
    CorrectedStubFitsFrame(f);
    CorrectedStubFitsFrame(g);
  }
}
