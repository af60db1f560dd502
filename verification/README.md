# dex-stubber, modelled in Dafny

dex-stubber takes a dex file and replaces the body of every concrete method
with the smallest body that still matches its return type. The result is an
API skeleton with no original logic.

This project models two parts of `DexStubber.java`:

- **Stub-body synthesis** (`getMethodImplementation`). The return-type
  descriptor picks one of four stub shapes, or the "Unknown return type"
  failure. The shape fixes the instruction list. The static flag and the
  parameter count fix the register count.
- **The rewrite loop of `main`**. Abstract and native methods are dropped.
  Every other method is rebuilt with a stub body. Every class is rebuilt with
  its metadata unchanged. One failure aborts everything.

Modules:

- `Results` (`results.dfy`): `Option` and `Result`.
- `Dalvik` (`dalvik.dfy`): the six opcodes and the formats 10x, 11n, 11x and
  21s as an abstract instruction datatype. It also has the format operand
  ranges, the registers each instruction touches, and `Exec`. `Exec` is a
  small straight-line semantics that says what a body returns, or that it
  faults.
- `Descriptors` (`descriptors.dfy`): the standard type-descriptor grammar and
  the register width of a parameter type. The grammar is the reference that
  the stubber's looser string tests are compared against.
- `Stubber` (`stubber.dfy`): `Classify`, `Build` and `Synthesize`, with their
  lemmas.
- `DexModel` (`dex_model.dfy`): method, parameter, field and class records.
  Access flags are `bv32`: static `0x8`, native `0x100`, abstract `0x400`.
- `Rewrite` (`rewrite.dfy`): the rewrite driver, its specification, the
  register-frame lemmas and the finding below.
- `Scenarios` (`scenarios.dfy`): worked cases.

Details of the code the model keeps:

- The constant always goes to `v0`. It is not placed after the parameter
  registers. For `static long f(int)` the code emits
  `const-wide/16 v0, #0; return-wide v0` with 4 registers, not `v1` with 3.
  Dalvik passes arguments in the last registers of the frame, so `v0` is a
  local whenever the frame is large enough.
- For a non-void return the count is 2 (narrow or reference) or 3 (wide), plus
  the parameter count, whether or not the method is static. A static method
  therefore gets one spare register.
- Abstract and native methods are left out of the rebuilt class (the loop
  `continue`s past them). They are not copied through unchanged.
- The failure is the constant message "Unknown return type". It does not name
  the class, the method or the descriptor.

## Model

| member | source | states |
|---|---|---|
| `Stubber.Classify` | src/com/github/yntha/dexstubber/DexStubber.java:43-81 | No contract of its own. It is specified against the descriptor grammar by `ClassifyAcceptsEveryDescriptor` and `ClassifyBoundaries`, and through `Synthesize` by `SynthesizedShapes`. |
| `Rewrite.StubOf` | src/com/github/yntha/dexstubber/DexStubber.java:123 | No contract of its own. It is specified by the `Synthesize` contract and by the frame lemmas `AsWrittenFitsWithNarrowParameters`, `AsWrittenVoidFitsIffNarrow` and `CorrectedStubFitsFrame`. |
| `Rewrite.Restub` | src/com/github/yntha/dexstubber/DexStubber.java:114-123 | No contract of its own. It is specified by `RebuiltFrom` inside `RewriteMethodsSpec`: the same defining class, name, parameters, return type and flags, empty annotations and hidden-API restrictions, and the stub body. |
| `Rewrite.RewriteMethods` | src/com/github/yntha/dexstubber/DexStubber.java:104-124 | No contract of its own. It is specified by `RewriteMethodsSpec` and `RewriteMethodsIdempotent`. |
| `Rewrite.RewriteClass` | src/com/github/yntha/dexstubber/DexStubber.java:126-135 | No contract of its own. It is specified by `RewriteClassKeepsMetadata`. |
| `Rewrite.RewriteAll` | src/com/github/yntha/dexstubber/DexStubber.java:101-138 | No contract of its own. It is specified by `RewriteAllSpec` and `RewriteAllIdempotent`. |
| `Stubber.Synthesize` | src/com/github/yntha/dexstubber/DexStubber.java:35-86 | Synthesis fails exactly when classification does, always with `UnknownReturnType`. A successful body is well formed, touches only registers inside its frame, and has no try blocks or debug items. Its count covers the receiver, one register per parameter and the shape's scratch registers. |
| `Stubber.Build` | src/com/github/yntha/dexstubber/DexStubber.java:37-85 | Every emitted instruction satisfies its format's operand ranges. It touches only the shape's scratch registers (none for void, v0 for narrow and reference, v0–v1 for wide). Every touched register is below the register count. |
| `Stubber.SynthesizedShapes` | src/com/github/yntha/dexstubber/DexStubber.java:37-85 | The exact outcome per descriptor class. `V` gives `[return-void]` in receiver + n registers. `Z B S C F I` give `[const/4 v0,#0; return v0]` in 2 + n. `J D` give `[const-wide/16 v0,#0; return-wide v0]` in 3 + n. Anything else starting with `[` or ending with `;` gives `[const/4 v0,#0; return-object v0]` in 2 + n. Everything else fails. |
| `Stubber.SynthesisDependsOnlyOnDescriptor` | src/com/github/yntha/dexstubber/DexStubber.java:37-85 | Success and the instruction list depend only on the return descriptor. The static flag changes the count only for void stubs. Each parameter adds exactly one register. |
| `Stubber.ClassifyAcceptsEveryDescriptor` | src/com/github/yntha/dexstubber/DexStubber.java:43-81 | Every return descriptor of the standard grammar is accepted, with the shape its category calls for. |
| `Stubber.ClassifyBoundaries` | src/com/github/yntha/dexstubber/DexStubber.java:70-81 | The default branch is looser than the grammar: `X;` and `[` are stubbed as references. `""`, `X`, `II` and `L` are rejected. |
| `Stubber.StubReturnsZero` | src/com/github/yntha/dexstubber/DexStubber.java:43-82 | From any register contents, a synthesized body never faults. It returns zero (null for a reference) through the return instruction of its shape's kind. |
| `Stubber.StubHonoursReturnType` | src/com/github/yntha/dexstubber/DexStubber.java:43-85 | For a standard descriptor, the stub exists and returns the zero of exactly the register type the descriptor declares. |
| `Rewrite.RewriteMethodsSpec` | src/com/github/yntha/dexstubber/DexStubber.java:104-124 | The method loop succeeds exactly when every concrete method can be stubbed. Then no abstract or native method survives, and the output is at most as long as the input. Every output method is a concrete input method rebuilt with the same defining class, name, parameters, return type and flags, no annotations, no hidden-API restrictions and its stub body. Every concrete input method has such a rebuilt form in the output. |
| `Rewrite.RewriteClassKeepsMetadata` | src/com/github/yntha/dexstubber/DexStubber.java:126-135 | A rebuilt class keeps type, access flags, superclass, interfaces, source file, annotations and fields verbatim. Its methods are the rewritten ones, and it fails exactly when they do. |
| `Rewrite.RewriteAllSpec` | src/com/github/yntha/dexstubber/DexStubber.java:101-138 | All or nothing. The rewrite succeeds exactly when every class does, and then yields one rebuilt class per input class. Otherwise there is no partial result. |
| `Rewrite.RewriteMethodsIdempotent` | src/com/github/yntha/dexstubber/DexStubber.java:104-124 | Re-running the method loop on its own output returns that output. |
| `Rewrite.RewriteAllIdempotent` | src/com/github/yntha/dexstubber/DexStubber.java:101-138 | The whole rewrite is a fixed point: run on its own output, it returns that output unchanged. |
| `Rewrite.ParameterRegistersBounds` | src/com/github/yntha/dexstubber/DexStubber.java:85 | Parameters occupy at least one register each. They occupy exactly one each precisely when none is long or double. So the source's parameter count equals the register width only in that case. |
| `Rewrite.AsWrittenFitsWithNarrowParameters` | src/com/github/yntha/dexstubber/DexStubber.java:37-85 | As written, when no parameter is wide, the frame holds all ins, and the stub touches only locals below the first in. |
| `Rewrite.AsWrittenVoidFitsIffNarrow` | src/com/github/yntha/dexstubber/DexStubber.java:84-85 | As written, a void stub's frame holds its ins exactly when no parameter is long or double. |
| `Rewrite.WideParameterUndercount` | src/com/github/yntha/dexstubber/DexStubber.java:85 | The rule as written gives `static void f(long)` 1 register for 2 ins, a frame smaller than its ins. For instance `int g(long)` it leaves no locals, so `const/4 v0` lands in the receiver's register. That is legal Dalvik, but it breaks the locals-only layout `TouchesOnlyLocals` states. The corrected rule fits `f` and gives `g` a local. |
| `Rewrite.CorrectedStubFitsFrame` | src/com/github/yntha/dexstubber/DexStubber.java:84-85 | With the parameter term counted in registers, every stub's frame holds its ins, and the stub touches only locals, for every parameter list. |
| `Scenarios.SynthesisExamples` | src/com/github/yntha/dexstubber/DexStubber.java:43-85 | Worked cases: static `void()` gives 0 registers, instance `int()` gives 2, static `long(int)` gives 4 using v0, and instance `String[]()` gives 2 with `return-object`. |
| `Scenarios.EndToEnd` | src/com/github/yntha/dexstubber/DexStubber.java:101-135 | A class with `static int foo()` and `abstract void bar()` becomes the same class holding only the stubbed `foo`. A later class with an unknown return type fails the whole rewrite. |

## Left out

- File selection through a dialog, and console messages: user interface and output only.
- Loading the dex file and writing it back through the dex pool: this is the library codec. Classes and methods are records supplied by the caller, and the rewrite's result is what would be handed to the writer.
- The dex-to-jar conversion: an opaque foreign transform.
- Derivation of the output path: a thin wrapper over library file-name code.
- Binary encoding of instructions: instructions stay an abstract datatype. Their format operand ranges are stated by `Dalvik.WellFormed`.
- Hash-set iteration order and duplicate merging: method and class collections are sequences in iteration order. The specification of the method loop is stated set-wise (membership both ways), as a hash set would see it.
- The immutable class record's split of fields into static and instance, and of methods into direct and virtual: this reordering is done by the library. Fields are modelled as kept verbatim.
- The 16-bit limit on a body's register count, and Java `int` overflow: the dex format allows at most 255 parameter registers, so a count of at most 3 plus the parameters reaches neither.
- Rewrite.RewriteMethodsSpec: states the output set-wise. It does not state the output order, which the source's hash set does not keep either.

## Findings

| source | as written | input that shows it | evidently intended | confidence | as-written member | corrected member |
|---|---|---|---|---|---|---|
| src/com/github/yntha/dexstubber/DexStubber.java:85 | The register count adds `getParameters().size()`, the number of parameters. | `static void f(long)`: registers 0 + 1 = 1, but its ins need 2 registers, so registers_size < ins_size. (Instance `int g(long)` gets 2 + 1 = 3 registers, all ins, so `const/4 v0` overwrites the receiver. That is legal Dalvik, but the stub then writes an in.) | Add the registers the parameters occupy, counting long and double twice, as the receiver comment at line 37 reasons in registers. | high; not executed | `Rewrite.WideParameterUndercount` | `Rewrite.CorrectedStubFitsFrame` |

The rewrite driver takes the rule as a parameter: `CountParameters` is the
rule as written, and `CountParameterRegisters` is the corrected one. Every
driver lemma (`RewriteMethodsSpec`, `RewriteAllSpec`, both idempotence
lemmas) is proved for both rules.
