/**
  Worked cases of the stubber on concrete methods and classes, with the
  values the source computes.
 */
module Scenarios {
  import opened Results
  import opened Dalvik
  import opened Stubber
  import opened DexModel
  import opened Rewrite

  /** Single-method cases: a static `void` method with no parameters, an
      instance `int` method, a static `long` method taking one `int` (the
      constant goes to v0 and the count is 3 + 1), and an instance method
      returning `String[]`. */
  lemma SynthesisExamples()
    ensures Synthesize("V", true, 0) == Success(MethodImplementation(0, [Insn10x(ReturnVoid)], [], []))
    ensures Synthesize("I", false, 0)
      == Success(MethodImplementation(2, [Insn11n(Const4, 0, 0), Insn11x(Return, 0)], [], []))
    ensures Synthesize("J", true, 1)
      == Success(MethodImplementation(4, [Insn21s(ConstWide16, 0, 0), Insn11x(ReturnWide, 0)], [], []))
    ensures Synthesize("[Ljava/lang/String;", false, 0)
      == Success(MethodImplementation(2, [Insn11n(Const4, 0, 0), Insn11x(ReturnObject, 0)], [], []))
  {
    assert "[Ljava/lang/String;" !in NarrowReturnTypes && "[Ljava/lang/String;" !in WideReturnTypes;
  }

  /** A class holding `static int foo()` and `abstract void bar()`: the rebuilt
      class holds `foo` alone, with the body `const/4 v0, #0; return v0` in two
      registers, and `bar` is gone. A class with a method of unknown return
      type makes the whole rewrite fail, even after a class that succeeds. */
  lemma EndToEnd(rule: RegisterRule)
    ensures
      var foo := Method("LA;", "foo", [], "I", AccStatic, {}, {}, None);
      var bar := Method("LA;", "bar", [], "V", AccAbstract, {}, {}, None);
      var a := ClassDef("LA;", 0x1, Some("Ljava/lang/Object;"), [], Some("A.java"), {}, [], [foo, bar]);
      RewriteAll([a], rule) == Success([a.(methods := [
        Method("LA;", "foo", [], "I", AccStatic, {}, {},
               Some(MethodImplementation(2, [Insn11n(Const4, 0, 0), Insn11x(Return, 0)], [], [])))])])
    ensures
      var foo := Method("LA;", "foo", [], "I", AccStatic, {}, {}, None);
      var a := ClassDef("LA;", 0x1, None, [], None, {}, [], [foo]);
      var bad := Method("LB;", "bad", [], "Q", 0, {}, {}, None);
      var b := ClassDef("LB;", 0x1, None, [], None, {}, [], [bad]);
      RewriteAll([a, b], rule) == Failure(UnknownReturnType)
  {
    var foo := Method("LA;", "foo", [], "I", AccStatic, {}, {}, None);
    var bar := Method("LA;", "bar", [], "V", AccAbstract, {}, {}, None);
    assert IsAbstractOrNative(bar.accessFlags);
    assert !IsAbstractOrNative(foo.accessFlags);
    assert IsStatic(foo.accessFlags);
    var body := MethodImplementation(2, [Insn11n(Const4, 0, 0), Insn11x(Return, 0)], [], []);
    assert StubOf(foo, rule) == Success(body);
    assert [foo, bar][1..] == [bar];
    assert [bar][1..] == [];
    assert RewriteMethods([bar], rule) == Success([]);
    assert [foo, bar][0] == foo;
    assert [Restub(foo, body)] + [] == [Restub(foo, body)];
    var a1 := ClassDef("LA;", 0x1, Some("Ljava/lang/Object;"), [], Some("A.java"), {}, [], [foo, bar]);
    var c1 := a1.(methods := [Restub(foo, body)]);
    assert RewriteClass(a1, rule) == Success(c1);
    assert [a1][1..] == [];
    assert [c1] + [] == [c1];
    assert RewriteMethods([foo, bar], rule) == Success([Restub(foo, body)]);
    var a := ClassDef("LA;", 0x1, None, [], None, {}, [], [foo]);
    assert [foo][1..] == [];
    assert RewriteMethods([foo], rule) == Success([Restub(foo, body)]);
    var bad := Method("LB;", "bad", [], "Q", 0, {}, {}, None);
    var b := ClassDef("LB;", 0x1, None, [], None, {}, [], [bad]);
    assert !IsAbstractOrNative(bad.accessFlags);
    assert StubOf(bad, rule).Failure?;
    assert RewriteClass(b, rule).Failure?;
    assert [a, b][1..] == [b];
  }
}
