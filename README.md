# Closure Templates: `bidiMarkAfter` and the Tofu render-failure boundary

This project models two small pieces of the Closure Templates (Soy) rendering
engine in Dafny and proves properties about them.

1. **`bidiMarkAfter`** (module `BidiMarkAfter`, `bidi_mark_after.dfy`). This
   template function decides whether a zero-width directional mark must follow a
   piece of text. The mark keeps the text after it in the ambient ("global")
   direction laid out correctly. The function has two backends:
   - `computeForJava` is the interpreter. It returns the mark of the ambient
     direction, U+200E LEFT-TO-RIGHT MARK or U+200F RIGHT-TO-LEFT MARK (Unicode
     UAX #9, section 2.6), or the empty string.
   - `computeForJsSrc` is the JavaScript code generator. It returns the
     expression `soy.$$bidiMarkAfter(<dirCode>, <text>[, <isHtml>])`.

   The class `BidiMarkAfterFunction` is not part of this model. Its behaviour is
   taken from the assertions of its unit test, and the model is proved to agree
   with every one of them.
2. **`SoyTofuException`** (module `Tofu`, `soy_tofu_exception.dfy`). This is the
   exception the Tofu renderer gives its caller. It is built from the
   `RenderException` that propagated out of the templates. Its cause is picked
   by `getRootCause`, which walks the cause chain inward and stops early at the
   first `SoyDataException` that still has a cause. The conversion then calls
   `finalizeStackTrace()` on the `RenderException`, and then
   `finalizeStackTrace(this)`.

A cause chain is a non-empty `seq<Failure>`. Index 0 holds the exception itself,
and index `i + 1` holds the cause of index `i`. `GetRootCause` is the loop from
the source. It is proved against the recursive specification `RootCause`, and
the policy's properties are proved as lemmas about `RootCause`.

Three details of the behaviour:
- A mark is due when the text's direction (declared, or estimated from the
  content when none is declared) is opposite to the ambient direction, or when
  the exit direction of the content (the direction its end leaves the reader
  in) is. A declared direction replaces the overall estimate. It can force a
  mark, or remove one the estimate alone would cause. It never removes a mark
  due to the exit direction, so Hebrew text declared LTR under an LTR context
  gets a mark (`BidiMarkAfterFunctionTest.java:79-84`, `:114-119`).
- The dynamic direction code is the condition followed by `?-1:1`, with no
  spaces: `IS_RTL?-1:1`.
- The constructor computes the root cause (inside `super(...)`) before it calls
  `finalizeStackTrace()`. Neither step affects the other in the model.

## Model

| member | source | states |
|---|---|---|
| `BidiMarkAfter.ComputeForJava` | java/tests/com/google/template/soy/bidifunctions/BidiMarkAfterFunctionTest.java:49-120 | The result is empty or the one-character mark of the ambient direction, never the other mark. An exit direction opposite to the ambient forces the mark. A declared direction opposite to the ambient forces the mark, and so does an estimate opposite to the ambient when no direction is declared. Otherwise (including a declared ambient or NEUTRAL direction over content whose exit direction is not opposite) there is no mark. |
| `BidiMarkAfter.ComputeForJavaTestCases` | java/tests/com/google/template/soy/bidifunctions/BidiMarkAfterFunctionTest.java:49-120 | All 22 assertions of the interpreter test hold for every overall estimate and every exit-direction heuristic that classify `""`, `"a"` and U+05E0 as NEUTRAL, LTR and RTL. They are 18 distinct facts here, because a plain string and unsanitized text with no declared direction are the same value in the model. |
| `BidiMarkAfter.ComputeForJavaMirror` | java/tests/com/google/template/soy/bidifunctions/BidiMarkAfterFunctionTest.java:51-119 | Swapping LTR and RTL in the context, the declared direction, the estimate and the exit direction gives the mirrored result. The static-RTL half of the test is the mirror of the static-LTR half. |
| `BidiMarkAfter.ComputeForJsSrc` | java/tests/com/google/template/soy/bidifunctions/BidiMarkAfterFunctionTest.java:123-143 | The generated expression has precedence `Integer.MAX_VALUE`, and its code opens with `soy.$$bidiMarkAfter(` and ends with `)`. Its argument list is stated by `ComputeForJsSrcIsHelperCall`. |
| `BidiMarkAfter.ComputeForJsSrcIsHelperCall` | java/tests/com/google/template/soy/bidifunctions/BidiMarkAfterFunctionTest.java:123-143 | The generated code calls `soy.$$bidiMarkAfter` with the direction code first, then the caller's 1 or 2 argument codes verbatim and in order, so arity is kept. Its precedence is `Integer.MAX_VALUE`. |
| `BidiMarkAfter.ComputeForJsSrcStaticLtrCase` | java/tests/com/google/template/soy/bidifunctions/BidiMarkAfterFunctionTest.java:125-127 | One argument under static LTR gives the expression `soy.$$bidiMarkAfter(1, TEXT_JS_CODE)` with precedence `Integer.MAX_VALUE`. |
| `BidiMarkAfter.ComputeForJsSrcIsRtlCase` | java/tests/com/google/template/soy/bidifunctions/BidiMarkAfterFunctionTest.java:128-130 | One argument under the `IS_RTL` snippet gives the expression `soy.$$bidiMarkAfter(IS_RTL?-1:1, TEXT_JS_CODE)` with precedence `Integer.MAX_VALUE`. |
| `BidiMarkAfter.ComputeForJsSrcStaticRtlIsHtmlCase` | java/tests/com/google/template/soy/bidifunctions/BidiMarkAfterFunctionTest.java:133-137 | Two arguments under static RTL give the expression `soy.$$bidiMarkAfter(-1, TEXT_JS_CODE, IS_HTML_JS_CODE)` with precedence `Integer.MAX_VALUE`. |
| `BidiMarkAfter.ComputeForJsSrcIsRtlIsHtmlCase` | java/tests/com/google/template/soy/bidifunctions/BidiMarkAfterFunctionTest.java:138-142 | Two arguments under the `IS_RTL` snippet give the expression `soy.$$bidiMarkAfter(IS_RTL?-1:1, TEXT_JS_CODE, IS_HTML_JS_CODE)` with precedence `Integer.MAX_VALUE`. |
| `BidiMarkAfter.DirCodeAgreesWithInterpreter` | java/tests/com/google/template/soy/bidifunctions/BidiMarkAfterFunctionTest.java:38-46 | For each of the three direction providers and each value of the page's isRtl condition, the generated direction code evaluates to 1 or -1 for the same direction the interpreter resolves. The dynamic code is evaluated as a conditional on that very condition. |
| `BidiMarkAfter.DirCodeTestsOwnCondition` | java/tests/com/google/template/soy/bidifunctions/BidiMarkAfterFunctionTest.java:128-130 | A dynamic direction code built from any condition other than the page's own does not evaluate to a direction: the emitted conditional tests the caller's condition and no other. |
| `BidiMarkAfter.DynamicRtlHebrewNeedsNoMark` | java/tests/com/google/template/soy/bidifunctions/BidiMarkAfterFunctionTest.java:89-91 | Under the `IS_RTL` snippet with the condition true, the generated code selects RTL, and the interpreter, resolving the same ambient direction, gives Hebrew text with no declared direction no mark. This restates the static-RTL assertion at these lines under a dynamic context. |
| `Tofu.RootCauseFrom` | java/src/com/google/template/soy/tofu/SoyTofuException.java:50-60 | The walk from index `i` ends inside the chain, at or after `i`, and stops before the last element only at a `SoyDataException`. |
| `Tofu.RootCauseFromIsRootCause` | java/src/com/google/template/soy/tofu/SoyTofuException.java:50-60 | From a start with no `SoyDataException` before it, the walk stops where nothing earlier is a `SoyDataException`, and the stop is either one or the last element. |
| `Tofu.RootCauseCharacterized` | java/src/com/google/template/soy/tofu/SoyTofuException.java:50-59 | The root cause is exactly the one index in the chain that has no `SoyDataException` before it and is either a `SoyDataException` or cause-less (both directions). |
| `Tofu.CauselessIsOwnRootCause` | java/src/com/google/template/soy/tofu/SoyTofuException.java:50-59 | An exception without a cause is its own root cause. |
| `Tofu.FirstDataErrorIsRootCause` | java/src/com/google/template/soy/tofu/SoyTofuException.java:51-56 | The first `SoyDataException` in the chain is the root cause. |
| `Tofu.NoDataErrorMeansDeepest` | java/src/com/google/template/soy/tofu/SoyTofuException.java:51-59 | With no `SoyDataException` anywhere above the deepest cause, the deepest cause is the root cause, whatever its own kind: the loop stops at the cause-less element before testing it. |
| `Tofu.DeeperCausesAreNotUnwrapped` | java/src/com/google/template/soy/tofu/SoyTofuException.java:52-55 | Once the walk stops at a `SoyDataException`, adding causes beneath the chain does not change the root cause. |
| `Tofu.SoyTofuException.GetRootCause` | java/src/com/google/template/soy/tofu/SoyTofuException.java:50-60 | The loop returns an index in the chain with no `SoyDataException` before it. That index is the last element or a `SoyDataException`, and it equals `RootCause`. |
| `Tofu.SoyTofuException.constructor` | java/src/com/google/template/soy/tofu/SoyTofuException.java:33-35 | The message-only constructor sets the message and no cause. |
| `Tofu.SoyTofuException.FromRenderException` | java/src/com/google/template/soy/tofu/SoyTofuException.java:41-48 | The message is the `RenderException`'s message and the cause is the chain's root cause. `finalizeStackTrace()` and then `finalizeStackTrace(this)` are recorded on the `RenderException`, once each and in that order. |
| `Tofu.RenderException.FinalizeStackTrace` | java/src/com/google/template/soy/tofu/SoyTofuException.java:46 | Records one `finalizeStackTrace()` call and changes nothing else. |
| `Tofu.RenderException.FinalizeStackTraceOnto` | java/src/com/google/template/soy/tofu/SoyTofuException.java:47 | Records one `finalizeStackTrace(target)` call with its target and changes nothing else. |

## Left out

- `BidiMarkAfterFunction.java`, `BidiFormatter` and the direction estimator are not part of this model. The two heuristics, the overall estimate (first strong character) and the exit direction, are separate parameters of type `Estimator`. Only the three inputs the tests use are fixed for each, by `FixesTestInputs`. Their tables and their HTML-skipping mode are left out.
- `BidiMarkAfter.ComputeForJava`: the interpreter's arguments are a text value and an isHtml flag. The flag stands for the optional second argument (false when absent) and is passed to the estimator. Converting `SoyValue` arguments, including `SanitizedContent` kinds, is not modelled. The result is the mark string. The `StringData` wrapper is not modelled.
- `BidiMarkAfter.ComputeForJava`: the interpreter takes a static ambient direction. The code-snippet provider is only exercised by the code generator.
- `BidiMarkAfter.ComputeForJsSrcIsHelperCall`: the result's precedence is the constant `Integer.MAX_VALUE`, the precedence of a call expression. The tests only pass inputs of that precedence, so they cannot show whether the input's precedence is copied.
- `BidiMarkAfter.DirCodeAgreesWithInterpreter`: the JavaScript runtime helper `soy.$$bidiMarkAfter` is not part of this model. Agreement between the two backends is proved for the direction code only, not for the mark the helper computes. The page's isRtl condition is treated as one JavaScript expression, given by its code, that evaluates to a boolean. Operator precedence around `?:` is not modelled.
- `RenderException` is not part of this model beyond its message, its cause chain and a log of `finalizeStackTrace` calls. Frame aggregation, stack-trace capture and copying a trace onto another exception (Java `Throwable` machinery) are left out.
- Java exceptions are reduced to a kind tag (`RenderError`, `SoyDataError`, `OtherError`) and a message. Class inheritance and object identity are left out. A cause is compared by value.
- Cause chains are finite sequences. Cyclic cause chains, on which the Java loop would not terminate, are not modelled.
- The test scaffolding (the `SharedRestrictedTestUtils` providers, Truth and JUnit) is not modelled. The three providers appear as the three `GlobalDir` values.
