/**
 * The `bidiMarkAfter` template function: whether a zero-width directional mark
 * must follow a piece of text so that the ambient-direction text after it is
 * laid out correctly, in its two backends — the interpreter (`computeForJava`),
 * which decides the mark on a runtime value, and the JavaScript code generator
 * (`computeForJsSrc`), which emits a call to the runtime helper instead.
 */
module BidiMarkAfter {
  import opened Wrappers

  /** A text direction, as a value may declare it or the estimator may find it. */
  datatype Dir = Ltr | Rtl | Neutral

  /** The ambient (global) direction of a render: left-to-right or right-to-left, never neutral. */
  type Ambient = d: Dir | d != Neutral witness Ltr

  function Opposite(d: Ambient): Ambient {
    if d == Ltr then Rtl else Ltr
  }

  /** A runtime text value: its content and the direction its producer declared, if any. */
  datatype TextValue = TextValue(content: string, declaredDir: Option<Dir>)

  /**
   * An external direction heuristic over a text and whether it is HTML (markup
   * to be skipped). Two are used: the overall estimate of a text (its first
   * strong character) and its exit direction (the direction its end leaves the
   * reader in). Both stay parameters: only the values the tests rely on are
   * fixed, by `FixesTestInputs`.
   */
  type Estimator = (string, bool) -> Dir

  /** U+200E LEFT-TO-RIGHT MARK and U+200F RIGHT-TO-LEFT MARK (Unicode UAX #9, section 2.6). */
  const LRM: char := '\U{200E}'
  const RLM: char := '\U{200F}'

  /** The one-character mark of an ambient direction. */
  function Mark(d: Ambient): string {
    if d == Ltr then [LRM] else [RLM]
  }

  /** The heuristic classifies the three texts the tests use as they are classified in Unicode. */
  predicate FixesTestInputs(estimate: Estimator) {
    && estimate("", false) == Neutral
    && estimate("a", false) == Ltr
    && estimate("\U{05E0}", false) == Rtl
  }

  // ---------------------------------------------------------------------------
  // Interpreter backend

  /**
   * `computeForJava`: the mark to put after `text` under the ambient direction.
   * The direction of the text is its declared one, or the estimate of its
   * content when none is declared; a mark is due when that direction, or the
   * exit direction of the content, is opposite to the ambient. A declared
   * direction replaces the overall estimate: it can force a mark, or remove one
   * the estimate alone would cause, but never one due to the exit direction.
   * The mark emitted is always the ambient's own.
   */
  function ComputeForJava(text: TextValue, isHtml: bool, ambient: Ambient, estimate: Estimator, exitDir: Estimator)
    : (r: string)
    ensures r == "" || r == Mark(ambient)
    ensures r != Mark(Opposite(ambient))
    ensures exitDir(text.content, isHtml) == Opposite(ambient) ==> r == Mark(ambient)
    ensures text.declaredDir == Some(Opposite(ambient)) ==> r == Mark(ambient)
    ensures text.declaredDir == None && estimate(text.content, isHtml) == Opposite(ambient) ==> r == Mark(ambient)
    ensures && exitDir(text.content, isHtml) != Opposite(ambient)
            && text.declaredDir != Some(Opposite(ambient))
            && (text.declaredDir == None ==> estimate(text.content, isHtml) != Opposite(ambient))
            ==> r == ""
  {
    var textDir := text.declaredDir.GetOr(estimate(text.content, isHtml));
    if textDir == Opposite(ambient) || exitDir(text.content, isHtml) == Opposite(ambient) then
      Mark(ambient)
    else
      ""
  }

  /** The direction with left and right exchanged. */
  function MirrorDir(d: Dir): Dir {
    match d
    case Ltr => Rtl
    case Rtl => Ltr
    case Neutral => Neutral
  }

  function MirrorText(t: TextValue): TextValue {
    TextValue(t.content, match t.declaredDir case Some(d) => Some(MirrorDir(d)) case None => None)
  }

  /** Swapping left and right everywhere swaps the mark: the policy favours neither direction. */
  lemma ComputeForJavaMirror(text: TextValue, isHtml: bool, ambient: Ambient, estimate: Estimator, exitDir: Estimator)
    ensures var mirroredEstimate := (s, h) => MirrorDir(estimate(s, h));
            var mirroredExit := (s, h) => MirrorDir(exitDir(s, h));
            var r := ComputeForJava(text, isHtml, ambient, estimate, exitDir);
            var r' := ComputeForJava(MirrorText(text), isHtml, Opposite(ambient), mirroredEstimate, mirroredExit);
            (r == "" <==> r' == "") && (r != "" ==> r' == Mark(Opposite(ambient)))
  {
  }

  /** Every assertion of the interpreter test, for any heuristics that agree with it on its inputs. */
  lemma ComputeForJavaTestCases(estimate: Estimator, exitDir: Estimator)
    requires FixesTestInputs(estimate) && FixesTestInputs(exitDir)
    ensures var ltr, rtl, heb := Ltr, Rtl, "\U{05E0}";
      // static LTR, plain strings
      && ComputeForJava(TextValue("", None), false, ltr, estimate, exitDir) == ""
      && ComputeForJava(TextValue("a", None), false, ltr, estimate, exitDir) == ""
      && ComputeForJava(TextValue(heb, None), false, ltr, estimate, exitDir) == [LRM]
      // static LTR, text with and without a declared direction
      && ComputeForJava(TextValue("a", Some(Ltr)), false, ltr, estimate, exitDir) == ""
      && ComputeForJava(TextValue("a", Some(Neutral)), false, ltr, estimate, exitDir) == ""
      && ComputeForJava(TextValue("a", Some(Rtl)), false, ltr, estimate, exitDir) == [LRM]
      && ComputeForJava(TextValue(heb, Some(Rtl)), false, ltr, estimate, exitDir) == [LRM]
      && ComputeForJava(TextValue(heb, Some(Neutral)), false, ltr, estimate, exitDir) == [LRM]
      && ComputeForJava(TextValue(heb, Some(Ltr)), false, ltr, estimate, exitDir) == [LRM]
      // static RTL, plain strings
      && ComputeForJava(TextValue("", None), false, rtl, estimate, exitDir) == ""
      && ComputeForJava(TextValue(heb, None), false, rtl, estimate, exitDir) == ""
      && ComputeForJava(TextValue("a", None), false, rtl, estimate, exitDir) == [RLM]
      // static RTL, text with and without a declared direction
      && ComputeForJava(TextValue(heb, Some(Rtl)), false, rtl, estimate, exitDir) == ""
      && ComputeForJava(TextValue(heb, Some(Neutral)), false, rtl, estimate, exitDir) == ""
      && ComputeForJava(TextValue(heb, Some(Ltr)), false, rtl, estimate, exitDir) == [RLM]
      && ComputeForJava(TextValue("a", Some(Ltr)), false, rtl, estimate, exitDir) == [RLM]
      && ComputeForJava(TextValue("a", Some(Neutral)), false, rtl, estimate, exitDir) == [RLM]
      && ComputeForJava(TextValue("a", Some(Rtl)), false, rtl, estimate, exitDir) == [RLM]
  {
  }

  // ---------------------------------------------------------------------------
  // JavaScript code-generation backend

  /** A generated JavaScript expression: its code and its operator precedence. */
  datatype JsExpr = JsExpr(text: string, precedence: int)

  /** Java's `Integer.MAX_VALUE`, the precedence of an expression that never needs parentheses. */
  const MAX_PRECEDENCE: int := 0x7FFF_FFFF

  /**
   * Where the generated code takes the ambient direction from: a fixed
   * direction, or a JavaScript condition that is true when the page is right-to-left.
   */
  datatype GlobalDir = StaticLtr | StaticRtl | IsRtlSnippet(condition: string)

  /** The direction-code argument of the runtime helper: `1` for LTR, `-1` for RTL. */
  function DirCode(g: GlobalDir): string {
    match g
    case StaticLtr => "1"
    case StaticRtl => "-1"
    case IsRtlSnippet(c) => c + "?-1:1"
  }

  /** The codes of a list of expressions, in order. */
  function Codes(args: seq<JsExpr>): (r: seq<string>)
    ensures |r| == |args|
    ensures forall i :: 0 <= i < |args| ==> r[i] == args[i].text
  {
    if args == [] then [] else [args[0].text] + Codes(args[1..])
  }

  /** A comma-and-space separated argument list. */
  function JoinArgs(xs: seq<string>): string {
    if xs == [] then ""
    else if |xs| == 1 then xs[0]
    else xs[0] + ", " + JoinArgs(xs[1..])
  }

  /** The code of a call of `callee` on the given argument codes. */
  function CallCode(callee: string, argCodes: seq<string>): string {
    callee + "(" + JoinArgs(argCodes) + ")"
  }

  /** The name of the JavaScript runtime helper the generated code calls. */
  const RUNTIME_HELPER: string := "soy.$$bidiMarkAfter"

  /**
   * `computeForJsSrc`: the call of the runtime helper, as the generator writes
   * it. Its argument list is stated by `ComputeForJsSrcIsHelperCall`.
   */
  function ComputeForJsSrc(args: seq<JsExpr>, g: GlobalDir): (r: JsExpr)
    requires 1 <= |args| <= 2
    ensures r.precedence == MAX_PRECEDENCE
    ensures |r.text| > |RUNTIME_HELPER| + 1
    ensures r.text[..|RUNTIME_HELPER| + 1] == RUNTIME_HELPER + "(" && r.text[|r.text| - 1] == ')'
  {
    var isHtmlCode := if |args| == 2 then ", " + args[1].text else "";
    JsExpr(RUNTIME_HELPER + "(" + DirCode(g) + ", " + args[0].text + isHtmlCode + ")", MAX_PRECEDENCE)
  }

  /**
   * The generated code calls the runtime helper on the direction code followed
   * by the caller's arguments, text first and then the optional isHtml
   * expression, each copied verbatim: the call has exactly one argument more
   * than the template function's call, and never needs parentheses.
   */
  lemma ComputeForJsSrcIsHelperCall(args: seq<JsExpr>, g: GlobalDir)
    requires 1 <= |args| <= 2
    ensures ComputeForJsSrc(args, g).precedence == MAX_PRECEDENCE
    ensures ComputeForJsSrc(args, g).text == CallCode(RUNTIME_HELPER, [DirCode(g)] + Codes(args))
  {
    var d, open := DirCode(g), RUNTIME_HELPER + "(";
    var isHtmlCode := if |args| == 2 then ", " + args[1].text else "";
    var rest := args[0].text + isHtmlCode;
    JoinArgsOfCall(d, args);
    calc {
      ComputeForJsSrc(args, g).text;
      open + d + ", " + args[0].text + isHtmlCode + ")";
      { Associate(open + d + ", ", args[0].text, isHtmlCode); }
      open + d + ", " + rest + ")";
      { Associate(open + d, ", ", rest); }
      open + d + (", " + rest) + ")";
      { Associate(open, d, ", " + rest); }
      open + (d + (", " + rest)) + ")";
      { Associate(d, ", ", rest); }
      open + JoinArgs([d] + Codes(args)) + ")";
    }
  }

  /** The argument list of the generated call, written out for one or two arguments. */
  lemma JoinArgsOfCall(d: string, args: seq<JsExpr>)
    requires 1 <= |args| <= 2
    ensures JoinArgs([d] + Codes(args))
         == d + ", " + (args[0].text + if |args| == 2 then ", " + args[1].text else "")
  {
    var codes := Codes(args);
    if |args| == 1 {
      assert [d] + codes == [d, args[0].text];
      JoinArgsPair(d, args[0].text);
    } else {
      assert [d] + codes == [d, args[0].text, args[1].text];
      JoinArgsTriple(d, args[0].text, args[1].text);
    }
  }

  lemma JoinArgsPair(a: string, b: string)
    ensures JoinArgs([a, b]) == a + ", " + (b + "")
  {
  }

  lemma JoinArgsTriple(a: string, b: string, c: string)
    ensures JoinArgs([a, b, c]) == a + ", " + (b + (", " + c))
  {
    assert [a, b, c][1..] == [b, c];
    JoinArgsPair(b, c);
    Associate(b, ", ", c);
  }

  lemma Associate(a: string, b: string, c: string)
    ensures a + b + c == a + (b + c)
  {
  }

  // The code-generation test, assertion by assertion. Each expected value is
  // the test's own literal; a `...Literal` lemma cuts it, one slice at a time,
  // into the pieces the generator joins.

  /** `lit` is `a` followed by `b`. */
  lemma SplitLiteral(lit: string, a: string, b: string)
    requires |a| <= |lit| && lit[..|a|] == a && lit[|a|..] == b
    ensures lit == a + b
  {
    assert lit == lit[..|a|] + lit[|a|..];
  }

  /** `TEXT_JS_CODE` alone under static LTR. */
  lemma ComputeForJsSrcStaticLtrCase()
    ensures ComputeForJsSrc([JsExpr("TEXT_JS_CODE", MAX_PRECEDENCE)],
                            StaticLtr)
         == JsExpr("soy.$$bidiMarkAfter(1, TEXT_JS_CODE)", 0x7FFF_FFFF)
  {
    assert ComputeForJsSrc([JsExpr("TEXT_JS_CODE", MAX_PRECEDENCE)],
                           StaticLtr).text
        == "soy.$$bidiMarkAfter" + "(" + "1" + ", " + "TEXT_JS_CODE" + ")";
    StaticLtrLiteral();
  }

  lemma StaticLtrLiteral()
    ensures "soy.$$bidiMarkAfter" + "(" + "1" + ", " + "TEXT_JS_CODE" + ")"
         == "soy.$$bidiMarkAfter(1, TEXT_JS_CODE)"
  {
    SplitLiteral("soy.$$bidiMarkAfter(1, TEXT_JS_CODE)", "soy.$$bidiMarkAfter(1, TEXT_JS_CODE", ")");
    SplitLiteral("soy.$$bidiMarkAfter(1, TEXT_JS_CODE", "soy.$$bidiMarkAfter(1, ", "TEXT_JS_CODE");
    SplitLiteral("soy.$$bidiMarkAfter(1, ", "soy.$$bidiMarkAfter(1", ", ");
    SplitLiteral("soy.$$bidiMarkAfter(1", "soy.$$bidiMarkAfter(", "1");
    SplitLiteral("soy.$$bidiMarkAfter(", "soy.$$bidiMarkAfter", "(");
  }

  /** `TEXT_JS_CODE` alone under the isRtl condition. */
  lemma ComputeForJsSrcIsRtlCase()
    ensures ComputeForJsSrc([JsExpr("TEXT_JS_CODE", MAX_PRECEDENCE)],
                            IsRtlSnippet("IS_RTL"))
         == JsExpr("soy.$$bidiMarkAfter(IS_RTL?-1:1, TEXT_JS_CODE)", 0x7FFF_FFFF)
  {
    assert ComputeForJsSrc([JsExpr("TEXT_JS_CODE", MAX_PRECEDENCE)],
                           IsRtlSnippet("IS_RTL")).text
        == "soy.$$bidiMarkAfter" + "(" + "IS_RTL?-1:1" + ", " + "TEXT_JS_CODE" + ")";
    IsRtlLiteral();
  }

  lemma IsRtlLiteral()
    ensures "soy.$$bidiMarkAfter" + "(" + "IS_RTL?-1:1" + ", " + "TEXT_JS_CODE" + ")"
         == "soy.$$bidiMarkAfter(IS_RTL?-1:1, TEXT_JS_CODE)"
  {
    SplitLiteral("soy.$$bidiMarkAfter(IS_RTL?-1:1, TEXT_JS_CODE)", "soy.$$bidiMarkAfter(IS_RTL?-1:1, TEXT_JS_CODE", ")");
    SplitLiteral("soy.$$bidiMarkAfter(IS_RTL?-1:1, TEXT_JS_CODE", "soy.$$bidiMarkAfter(IS_RTL?-1:1, ", "TEXT_JS_CODE");
    SplitLiteral("soy.$$bidiMarkAfter(IS_RTL?-1:1, ", "soy.$$bidiMarkAfter(IS_RTL?-1:1", ", ");
    SplitLiteral("soy.$$bidiMarkAfter(IS_RTL?-1:1", "soy.$$bidiMarkAfter(", "IS_RTL?-1:1");
    SplitLiteral("soy.$$bidiMarkAfter(", "soy.$$bidiMarkAfter", "(");
  }

  /** `TEXT_JS_CODE` and `IS_HTML_JS_CODE` under static RTL. */
  lemma ComputeForJsSrcStaticRtlIsHtmlCase()
    ensures ComputeForJsSrc([JsExpr("TEXT_JS_CODE", MAX_PRECEDENCE), JsExpr("IS_HTML_JS_CODE", MAX_PRECEDENCE)],
                            StaticRtl)
         == JsExpr("soy.$$bidiMarkAfter(-1, TEXT_JS_CODE, IS_HTML_JS_CODE)", 0x7FFF_FFFF)
  {
    assert ComputeForJsSrc([JsExpr("TEXT_JS_CODE", MAX_PRECEDENCE), JsExpr("IS_HTML_JS_CODE", MAX_PRECEDENCE)],
                           StaticRtl).text
        == "soy.$$bidiMarkAfter" + "(" + "-1" + ", " + "TEXT_JS_CODE" + ", " + "IS_HTML_JS_CODE" + ")";
    StaticRtlIsHtmlLiteral();
  }

  lemma StaticRtlIsHtmlLiteral()
    ensures "soy.$$bidiMarkAfter" + "(" + "-1" + ", " + "TEXT_JS_CODE" + ", " + "IS_HTML_JS_CODE" + ")"
         == "soy.$$bidiMarkAfter(-1, TEXT_JS_CODE, IS_HTML_JS_CODE)"
  {
    SplitLiteral("soy.$$bidiMarkAfter(-1, TEXT_JS_CODE, IS_HTML_JS_CODE)", "soy.$$bidiMarkAfter(-1, TEXT_JS_CODE, IS_HTML_JS_CODE", ")");
    SplitLiteral("soy.$$bidiMarkAfter(-1, TEXT_JS_CODE, IS_HTML_JS_CODE", "soy.$$bidiMarkAfter(-1, TEXT_JS_CODE, ", "IS_HTML_JS_CODE");
    SplitLiteral("soy.$$bidiMarkAfter(-1, TEXT_JS_CODE, ", "soy.$$bidiMarkAfter(-1, TEXT_JS_CODE", ", ");
    SplitLiteral("soy.$$bidiMarkAfter(-1, TEXT_JS_CODE", "soy.$$bidiMarkAfter(-1, ", "TEXT_JS_CODE");
    SplitLiteral("soy.$$bidiMarkAfter(-1, ", "soy.$$bidiMarkAfter(-1", ", ");
    SplitLiteral("soy.$$bidiMarkAfter(-1", "soy.$$bidiMarkAfter(", "-1");
    SplitLiteral("soy.$$bidiMarkAfter(", "soy.$$bidiMarkAfter", "(");
  }

  /** `TEXT_JS_CODE` and `IS_HTML_JS_CODE` under the isRtl condition. */
  lemma ComputeForJsSrcIsRtlIsHtmlCase()
    ensures ComputeForJsSrc([JsExpr("TEXT_JS_CODE", MAX_PRECEDENCE), JsExpr("IS_HTML_JS_CODE", MAX_PRECEDENCE)],
                            IsRtlSnippet("IS_RTL"))
         == JsExpr("soy.$$bidiMarkAfter(IS_RTL?-1:1, TEXT_JS_CODE, IS_HTML_JS_CODE)", 0x7FFF_FFFF)
  {
    assert ComputeForJsSrc([JsExpr("TEXT_JS_CODE", MAX_PRECEDENCE), JsExpr("IS_HTML_JS_CODE", MAX_PRECEDENCE)],
                           IsRtlSnippet("IS_RTL")).text
        == "soy.$$bidiMarkAfter" + "(" + "IS_RTL?-1:1" + ", " + "TEXT_JS_CODE" + ", " + "IS_HTML_JS_CODE" + ")";
    IsRtlIsHtmlLiteral();
  }

  lemma IsRtlIsHtmlLiteral()
    ensures "soy.$$bidiMarkAfter" + "(" + "IS_RTL?-1:1" + ", " + "TEXT_JS_CODE" + ", " + "IS_HTML_JS_CODE" + ")"
         == "soy.$$bidiMarkAfter(IS_RTL?-1:1, TEXT_JS_CODE, IS_HTML_JS_CODE)"
  {
    SplitLiteral("soy.$$bidiMarkAfter(IS_RTL?-1:1, TEXT_JS_CODE, IS_HTML_JS_CODE)", "soy.$$bidiMarkAfter(IS_RTL?-1:1, TEXT_JS_CODE, IS_HTML_JS_CODE", ")");
    SplitLiteral("soy.$$bidiMarkAfter(IS_RTL?-1:1, TEXT_JS_CODE, IS_HTML_JS_CODE", "soy.$$bidiMarkAfter(IS_RTL?-1:1, TEXT_JS_CODE, ", "IS_HTML_JS_CODE");
    SplitLiteral("soy.$$bidiMarkAfter(IS_RTL?-1:1, TEXT_JS_CODE, ", "soy.$$bidiMarkAfter(IS_RTL?-1:1, TEXT_JS_CODE", ", ");
    SplitLiteral("soy.$$bidiMarkAfter(IS_RTL?-1:1, TEXT_JS_CODE", "soy.$$bidiMarkAfter(IS_RTL?-1:1, ", "TEXT_JS_CODE");
    SplitLiteral("soy.$$bidiMarkAfter(IS_RTL?-1:1, ", "soy.$$bidiMarkAfter(IS_RTL?-1:1", ", ");
    SplitLiteral("soy.$$bidiMarkAfter(IS_RTL?-1:1", "soy.$$bidiMarkAfter(", "IS_RTL?-1:1");
    SplitLiteral("soy.$$bidiMarkAfter(", "soy.$$bidiMarkAfter", "(");
  }

  // ---------------------------------------------------------------------------
  // Agreement of the two backends on the ambient direction

  /** The ambient direction a render resolves, given what the isRtl condition is at that time. */
  function ResolveAmbient(g: GlobalDir, isRtl: bool): Ambient {
    match g
    case StaticLtr => Ltr
    case StaticRtl => Rtl
    case IsRtlSnippet(_) => if isRtl then Rtl else Ltr
  }

  /** The numeric direction code the runtime helper expects for an ambient direction. */
  function DirCodeValue(d: Ambient): int {
    if d == Ltr then 1 else -1
  }

  /**
   * JavaScript evaluation of the direction-code forms the generator emits, on a
   * page whose isRtl condition is the expression `cond` and evaluates to
   * `isRtl`; `None` for any other text, a conditional on another expression included.
   */
  function EvalDirCode(code: string, cond: string, isRtl: bool): Option<int> {
    if code == "1" then Some(1)
    else if code == "-1" then Some(-1)
    else if code == cond + "?-1:1" then Some(if isRtl then -1 else 1)
    else None
  }

  /**
   * The direction code in the generated call evaluates to the code of the same
   * ambient direction the interpreter resolves, for every context and every
   * value of the page's isRtl condition.
   */
  lemma DirCodeAgreesWithInterpreter(g: GlobalDir, cond: string, isRtl: bool)
    requires g.IsRtlSnippet? ==> g.condition == cond
    ensures EvalDirCode(DirCode(g), cond, isRtl) == Some(DirCodeValue(ResolveAmbient(g, isRtl)))
  {
  }

  /**
   * The conditional the generator emits tests the caller's condition and no
   * other: under a snippet other than the page's own, the code does not
   * evaluate to a direction.
   */
  lemma DirCodeTestsOwnCondition(other: string, cond: string, isRtl: bool)
    requires other != cond
    ensures EvalDirCode(DirCode(IsRtlSnippet(other)), cond, isRtl) == None
  {
  }

  /**
   * Under a dynamic context whose condition holds, the generated code selects
   * RTL, and the interpreter, resolving the same ambient direction, gives
   * Hebrew text with no declared direction no mark. This is the static-RTL
   * assertion of the interpreter test, restated for the dynamic context.
   */
  lemma DynamicRtlHebrewNeedsNoMark(estimate: Estimator, exitDir: Estimator)
    requires FixesTestInputs(estimate) && FixesTestInputs(exitDir)
    ensures var g := IsRtlSnippet("IS_RTL");
      && EvalDirCode(DirCode(g), "IS_RTL", true) == Some(-1)
      && ComputeForJava(TextValue("\U{05E0}", None), false, ResolveAmbient(g, true), estimate, exitDir) == ""
  {
  }
}
