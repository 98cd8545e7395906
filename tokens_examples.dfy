/** Worked instances of the two rewriters. Each rewrite is taken apart
    into one lemma per scanning step and one lemma per literal
    concatenation, and then put back together. The steps are stated
    generically in the replacement text, so that the verifier does not
    evaluate `ReplaceAll` on constant arguments; a lemma that takes more
    than one step on literal text at once is beyond its budget. */
module TokenExamples {
  import opened Text
  import opened Tokens

  lemma LowerUpperUser()
    ensures Lower("User") == "user" && Upper("User") == "USER"
  {
    var l, u := Lower("User"), Upper("User");
    assert l[0] == 'u' && l[1] == 's' && l[2] == 'e' && l[3] == 'r';
    assert u[0] == 'U' && u[1] == 'S' && u[2] == 'E' && u[3] == 'R';
  }

  lemma UserModulePath()
    ensures "USER" + "_MODULE_PATH" == "USER_MODULE_PATH"
  {
  }

  /** A feature named `Sample` keeps the token: the rewrite is applied
      uniformly, so a name that is itself a token survives in the output. */
  lemma FeatureNamedSample(m: string)
    ensures FeatureRewrite("Sample", "Sample", m) == "Sample"
  {
    UpperSample();
    SampleModulePath();
    ReplaceAllSelf("Sample", "Sample");
    ReplaceAllNoLead("Sample", "sample", Lower("Sample"));
    ReplaceAllSelf("Sample", "SAMPLE");
    SampleNoModulePath(m);
  }

  lemma UpperSample()
    ensures Upper("Sample") == "SAMPLE"
  {
    var u := Upper("Sample");
    assert u[0] == 'S' && u[1] == 'A' && u[2] == 'M' && u[3] == 'P' && u[4] == 'L' && u[5] == 'E';
  }

  lemma SampleModulePath()
    ensures "SAMPLE" + "_MODULE_PATH" == "SAMPLE_MODULE_PATH"
  {
  }

  lemma SampleNoModulePath(m: string)
    ensures ReplaceAll("Sample", "SAMPLE_MODULE_PATH", m) == "Sample"
  {
    assert "Sample" == ['S'] + "ample";
    ReplaceAllMiss('S', "ample", "SAMPLE_MODULE_PATH", m);
    ReplaceAllNoLead("ample", "SAMPLE_MODULE_PATH", m);
  }

  // ---------------------------------------------------------------------
  // A handler template renamed to the feature `User`
  // ---------------------------------------------------------------------

  lemma HandlerPass1SkipSplit()
    ensures "func SampleHandler() { return \"sample\" }" == "func " + "SampleHandler() { return \"sample\" }"
  {
  }

  lemma HandlerPass1Skip(r: string)
    ensures ReplaceAll("func SampleHandler() { return \"sample\" }", "Sample", r)
         == "func " + ReplaceAll("SampleHandler() { return \"sample\" }", "Sample", r)
  {
    HandlerPass1SkipSplit();
    ReplaceAllSkip("func ", "SampleHandler() { return \"sample\" }", "Sample", r);
  }

  lemma HandlerPass1HitSplit()
    ensures "SampleHandler() { return \"sample\" }" == "Sample" + "Handler() { return \"sample\" }"
  {
  }

  lemma HandlerPass1Hit(r: string)
    ensures ReplaceAll("SampleHandler() { return \"sample\" }", "Sample", r)
         == r + ReplaceAll("Handler() { return \"sample\" }", "Sample", r)
  {
    HandlerPass1HitSplit();
    ReplaceAllHit("Handler() { return \"sample\" }", "Sample", r);
  }

  lemma HandlerPass1Rest(r: string)
    ensures ReplaceAll("Handler() { return \"sample\" }", "Sample", r) == "Handler() { return \"sample\" }"
  {
    ReplaceAllNoLead("Handler() { return \"sample\" }", "Sample", r);
  }

  lemma HandlerPass1Join()
    ensures "User" + "Handler() { return \"sample\" }" == "UserHandler() { return \"sample\" }"
  {
  }

  lemma HandlerPass1Result()
    ensures "func " + "UserHandler() { return \"sample\" }" == "func UserHandler() { return \"sample\" }"
  {
  }

  lemma HandlerPass2SkipSplit()
    ensures "func UserHandler() { return \"sample\" }" == "func U" + "serHandler() { return \"sample\" }"
  {
  }

  lemma HandlerPass2Skip(r: string)
    ensures ReplaceAll("func UserHandler() { return \"sample\" }", "sample", r)
         == "func U" + ReplaceAll("serHandler() { return \"sample\" }", "sample", r)
  {
    HandlerPass2SkipSplit();
    ReplaceAllSkip("func U", "serHandler() { return \"sample\" }", "sample", r);
  }

  lemma HandlerPass2Miss(r: string)
    ensures ReplaceAll("serHandler() { return \"sample\" }", "sample", r)
         == "s" + ReplaceAll("erHandler() { return \"sample\" }", "sample", r)
  {
    assert "serHandler() { return \"sample\" }" == ['s'] + "erHandler() { return \"sample\" }";
    ReplaceAllMiss('s', "erHandler() { return \"sample\" }", "sample", r);
  }

  lemma HandlerPass2SkipAgain(r: string)
    ensures ReplaceAll("erHandler() { return \"sample\" }", "sample", r)
         == "erHandler() { return \"" + ReplaceAll("sample\" }", "sample", r)
  {
    assert "erHandler() { return \"sample\" }" == "erHandler() { return \"" + "sample\" }";
    ReplaceAllSkip("erHandler() { return \"", "sample\" }", "sample", r);
  }

  lemma HandlerPass2Hit(r: string)
    ensures ReplaceAll("sample\" }", "sample", r) == r + "\" }"
  {
    assert "sample\" }" == "sample" + "\" }";
    ReplaceAllHit("\" }", "sample", r);
    ReplaceAllNoLead("\" }", "sample", r);
  }

  lemma HandlerPass2Join1()
    ensures "user" + "\" }" == "user\" }"
  {
  }

  lemma HandlerPass2Join2()
    ensures "erHandler() { return \"" + "user\" }" == "erHandler() { return \"user\" }"
  {
  }

  lemma HandlerPass2Join3()
    ensures "s" + "erHandler() { return \"user\" }" == "serHandler() { return \"user\" }"
  {
  }

  lemma HandlerPass2Result()
    ensures "func U" + "serHandler() { return \"user\" }" == "func UserHandler() { return \"user\" }"
  {
  }

  /** Neither `SAMPLE` nor `SAMPLE_MODULE_PATH` can start anywhere: there
      is no capital `S` left. */
  lemma HandlerPasses3And4(m: string)
    ensures ReplaceAll("func UserHandler() { return \"user\" }", "SAMPLE", "USER") == "func UserHandler() { return \"user\" }"
    ensures ReplaceAll("func UserHandler() { return \"user\" }", "SAMPLE_MODULE_PATH", m) == "func UserHandler() { return \"user\" }"
  {
    ReplaceAllNoLead("func UserHandler() { return \"user\" }", "SAMPLE", "USER");
    ReplaceAllNoLead("func UserHandler() { return \"user\" }", "SAMPLE_MODULE_PATH", m);
  }

  lemma HandlerPass5SkipSplit()
    ensures "func UserHandler() { return \"user\" }" == "func " + "UserHandler() { return \"user\" }"
  {
  }

  lemma HandlerPass5Skip(m: string)
    ensures ReplaceAll("func UserHandler() { return \"user\" }", "USER_MODULE_PATH", m)
         == "func " + ReplaceAll("UserHandler() { return \"user\" }", "USER_MODULE_PATH", m)
  {
    HandlerPass5SkipSplit();
    ReplaceAllSkip("func ", "UserHandler() { return \"user\" }", "USER_MODULE_PATH", m);
  }

  lemma HandlerPass5MissSplit()
    ensures "UserHandler() { return \"user\" }" == ['U'] + "serHandler() { return \"user\" }"
  {
  }

  lemma HandlerPass5Miss(m: string)
    ensures ReplaceAll("UserHandler() { return \"user\" }", "USER_MODULE_PATH", m)
         == "U" + ReplaceAll("serHandler() { return \"user\" }", "USER_MODULE_PATH", m)
  {
    HandlerPass5MissSplit();
    ReplaceAllMiss('U', "serHandler() { return \"user\" }", "USER_MODULE_PATH", m);
  }

  lemma HandlerPass5Rest(m: string)
    ensures ReplaceAll("serHandler() { return \"user\" }", "USER_MODULE_PATH", m) == "serHandler() { return \"user\" }"
  {
    ReplaceAllNoLead("serHandler() { return \"user\" }", "USER_MODULE_PATH", m);
  }

  lemma HandlerPass1()
    ensures ReplaceAll("func SampleHandler() { return \"sample\" }", "Sample", "User")
         == "func UserHandler() { return \"sample\" }"
  {
    HandlerPass1Skip("User");
    HandlerPass1Hit("User");
    HandlerPass1Rest("User");
    HandlerPass1Join();
    HandlerPass1Result();
  }

  lemma HandlerPass2()
    ensures ReplaceAll("func UserHandler() { return \"sample\" }", "sample", "user")
         == "func UserHandler() { return \"user\" }"
  {
    HandlerPass2Skip("user");
    HandlerPass2Miss("user");
    HandlerPass2SkipAgain("user");
    HandlerPass2Hit("user");
    HandlerPass2Join1();
    HandlerPass2Join2();
    HandlerPass2Join3();
    HandlerPass2Result();
  }

  lemma HandlerPass5(m: string)
    ensures ReplaceAll("func UserHandler() { return \"user\" }", "USER_MODULE_PATH", m)
         == "func UserHandler() { return \"user\" }"
  {
    HandlerPass5Skip(m);
    HandlerPass5Miss(m);
    HandlerPass5Rest(m);
    HandlerPass5MissSplit();
    HandlerPass5SkipSplit();
  }

  /** The handler template: the first two passes rename, the other three
      find nothing. */
  lemma FeatureRewriteHandlerExample()
    ensures FeatureRewrite("func SampleHandler() { return \"sample\" }", "User", "github.com/acme/app")
         == "func UserHandler() { return \"user\" }"
  {
    LowerUpperUser();
    UserModulePath();
    HandlerPass1();
    HandlerPass2();
    HandlerPasses3And4("github.com/acme/app");
    HandlerPass5("github.com/acme/app");
  }

  // ---------------------------------------------------------------------
  // `SAMPLE_MODULE_PATH/x` renamed to the feature `User`
  // ---------------------------------------------------------------------

  lemma PathPass1Miss(r: string)
    ensures ReplaceAll("SAMPLE_MODULE_PATH/x", "Sample", r) == "S" + ReplaceAll("AMPLE_MODULE_PATH/x", "Sample", r)
  {
    assert "SAMPLE_MODULE_PATH/x" == ['S'] + "AMPLE_MODULE_PATH/x";
    ReplaceAllMiss('S', "AMPLE_MODULE_PATH/x", "Sample", r);
  }

  lemma PathPass1Rest(r: string)
    ensures ReplaceAll("AMPLE_MODULE_PATH/x", "Sample", r) == "AMPLE_MODULE_PATH/x"
  {
    ReplaceAllNoLead("AMPLE_MODULE_PATH/x", "Sample", r);
  }

  lemma PathPass1Result()
    ensures "S" + "AMPLE_MODULE_PATH/x" == "SAMPLE_MODULE_PATH/x"
  {
  }

  lemma PathPass2(r: string)
    ensures ReplaceAll("SAMPLE_MODULE_PATH/x", "sample", r) == "SAMPLE_MODULE_PATH/x"
  {
    ReplaceAllNoLead("SAMPLE_MODULE_PATH/x", "sample", r);
  }

  lemma PathPass3Hit(r: string)
    ensures ReplaceAll("SAMPLE_MODULE_PATH/x", "SAMPLE", r) == r + ReplaceAll("_MODULE_PATH/x", "SAMPLE", r)
  {
    assert "SAMPLE_MODULE_PATH/x" == "SAMPLE" + "_MODULE_PATH/x";
    ReplaceAllHit("_MODULE_PATH/x", "SAMPLE", r);
  }

  lemma PathPass3Rest(r: string)
    ensures ReplaceAll("_MODULE_PATH/x", "SAMPLE", r) == "_MODULE_PATH/x"
  {
    ReplaceAllNoLead("_MODULE_PATH/x", "SAMPLE", r);
  }

  lemma PathPass3Result()
    ensures "USER" + "_MODULE_PATH/x" == "USER_MODULE_PATH/x"
  {
  }

  lemma PathPass4Skip(m: string)
    ensures ReplaceAll("USER_MODULE_PATH/x", "SAMPLE_MODULE_PATH", m)
         == "U" + ReplaceAll("SER_MODULE_PATH/x", "SAMPLE_MODULE_PATH", m)
  {
    assert "USER_MODULE_PATH/x" == "U" + "SER_MODULE_PATH/x";
    ReplaceAllSkip("U", "SER_MODULE_PATH/x", "SAMPLE_MODULE_PATH", m);
  }

  lemma PathPass4Miss(m: string)
    ensures ReplaceAll("SER_MODULE_PATH/x", "SAMPLE_MODULE_PATH", m)
         == "S" + ReplaceAll("ER_MODULE_PATH/x", "SAMPLE_MODULE_PATH", m)
  {
    assert "SER_MODULE_PATH/x" == ['S'] + "ER_MODULE_PATH/x";
    ReplaceAllMiss('S', "ER_MODULE_PATH/x", "SAMPLE_MODULE_PATH", m);
  }

  lemma PathPass4Rest(m: string)
    ensures ReplaceAll("ER_MODULE_PATH/x", "SAMPLE_MODULE_PATH", m) == "ER_MODULE_PATH/x"
  {
    ReplaceAllNoLead("ER_MODULE_PATH/x", "SAMPLE_MODULE_PATH", m);
  }

  lemma PathPass4Join()
    ensures "S" + "ER_MODULE_PATH/x" == "SER_MODULE_PATH/x"
  {
  }

  lemma PathPass4Result()
    ensures "U" + "SER_MODULE_PATH/x" == "USER_MODULE_PATH/x"
  {
  }

  lemma PathPass5Hit(m: string)
    ensures ReplaceAll("USER_MODULE_PATH/x", "USER_MODULE_PATH", m) == m + ReplaceAll("/x", "USER_MODULE_PATH", m)
  {
    assert "USER_MODULE_PATH/x" == "USER_MODULE_PATH" + "/x";
    ReplaceAllHit("/x", "USER_MODULE_PATH", m);
  }

  lemma PathPass5Rest(m: string)
    ensures ReplaceAll("/x", "USER_MODULE_PATH", m) == "/x"
  {
    ReplaceAllNoLead("/x", "USER_MODULE_PATH", m);
  }

  lemma PathPass5Result()
    ensures "github.com/acme/app" + "/x" == "github.com/acme/app/x"
  {
  }

  lemma PathPass1()
    ensures ReplaceAll("SAMPLE_MODULE_PATH/x", "Sample", "User") == "SAMPLE_MODULE_PATH/x"
  {
    PathPass1Miss("User");
    PathPass1Rest("User");
    PathPass1Result();
  }

  lemma PathPass3()
    ensures ReplaceAll("SAMPLE_MODULE_PATH/x", "SAMPLE", "USER") == "USER_MODULE_PATH/x"
  {
    PathPass3Hit("USER");
    PathPass3Rest("USER");
    PathPass3Result();
  }

  lemma PathPass4(m: string)
    ensures ReplaceAll("USER_MODULE_PATH/x", "SAMPLE_MODULE_PATH", m) == "USER_MODULE_PATH/x"
  {
    PathPass4Skip(m);
    PathPass4Miss(m);
    PathPass4Rest(m);
    PathPass4Join();
    PathPass4Result();
  }

  lemma PathPass5()
    ensures ReplaceAll("USER_MODULE_PATH/x", "USER_MODULE_PATH", "github.com/acme/app") == "github.com/acme/app/x"
  {
    PathPass5Hit("github.com/acme/app");
    PathPass5Rest("github.com/acme/app");
    PathPass5Result();
  }

  /** `SAMPLE_MODULE_PATH` is consumed by the third pass, which turns it
      into `USER_MODULE_PATH`; the fourth pass then finds nothing and the
      fifth puts the module path in. */
  lemma FeatureRewriteModulePathExample()
    ensures FeatureRewrite("SAMPLE_MODULE_PATH/x", "User", "github.com/acme/app") == "github.com/acme/app/x"
  {
    LowerUpperUser();
    UserModulePath();
    PathPass1();
    PathPass2("user");
    PathPass3();
    PathPass4("github.com/acme/app");
    PathPass5();
  }

  // ---------------------------------------------------------------------
  // Substitution is not idempotent when the module path holds a token
  // ---------------------------------------------------------------------

  lemma CaseOfX()
    ensures Lower("x") == "x" && Upper("x") == "X"
    ensures "X" + "_MODULE_PATH" == "X_MODULE_PATH"
  {
    assert Lower("x")[0] == 'x' && Upper("x")[0] == 'X';
  }

  /** A text that is one whole occurrence of the pattern becomes the
      replacement. */
  lemma ReplaceAllWhole(p: string, r: string)
    requires |p| > 0
    ensures ReplaceAll(p, p, r) == r
  {
    assert p + [] == p;
    ReplaceAllHit([], p, r);
    assert r + [] == r;
  }

  lemma TokenPathMiss(r: string)
    ensures ReplaceAll("SAMPLE_MODULE_PATH", "Sample", r) == "S" + ReplaceAll("AMPLE_MODULE_PATH", "Sample", r)
    ensures "S" + "AMPLE_MODULE_PATH" == "SAMPLE_MODULE_PATH"
  {
    assert "SAMPLE_MODULE_PATH" == ['S'] + "AMPLE_MODULE_PATH";
    ReplaceAllMiss('S', "AMPLE_MODULE_PATH", "Sample", r);
  }

  lemma TokenPathMissRest(r: string)
    ensures ReplaceAll("AMPLE_MODULE_PATH", "Sample", r) == "AMPLE_MODULE_PATH"
  {
    ReplaceAllNoLead("AMPLE_MODULE_PATH", "Sample", r);
  }

  lemma TokenPathPass1(r: string)
    ensures ReplaceAll("SAMPLE_MODULE_PATH", "Sample", r) == "SAMPLE_MODULE_PATH"
  {
    TokenPathMiss(r);
    TokenPathMissRest(r);
  }

  lemma TokenPathPass2(r: string)
    ensures ReplaceAll("SAMPLE_MODULE_PATH", "sample", r) == "SAMPLE_MODULE_PATH"
  {
    ReplaceAllNoLead("SAMPLE_MODULE_PATH", "sample", r);
  }

  lemma TokenPathHit(r: string)
    ensures ReplaceAll("SAMPLE_MODULE_PATH", "SAMPLE", r) == r + ReplaceAll("_MODULE_PATH", "SAMPLE", r)
  {
    assert "SAMPLE_MODULE_PATH" == "SAMPLE" + "_MODULE_PATH";
    ReplaceAllHit("_MODULE_PATH", "SAMPLE", r);
  }

  lemma TokenPathHitRest(r: string)
    ensures ReplaceAll("_MODULE_PATH", "SAMPLE", r) == "_MODULE_PATH"
  {
    ReplaceAllNoLead("_MODULE_PATH", "SAMPLE", r);
  }

  lemma TokenPathPass3(r: string)
    ensures ReplaceAll("SAMPLE_MODULE_PATH", "SAMPLE", r) == r + "_MODULE_PATH"
  {
    TokenPathHit(r);
    TokenPathHitRest(r);
  }

  lemma TokenPathPass4(m: string)
    ensures ReplaceAll("X_MODULE_PATH", "SAMPLE_MODULE_PATH", m) == "X_MODULE_PATH"
  {
    ReplaceAllNoLead("X_MODULE_PATH", "SAMPLE_MODULE_PATH", m);
  }

  /** With the name `x` and the module path `sample`, the third pass turns
      `SAMPLE_MODULE_PATH` into `X_MODULE_PATH`, and the fifth puts the
      module path in: the output is the token `sample`. */
  lemma FeatureRewriteTokenModulePath()
    ensures FeatureRewrite("SAMPLE_MODULE_PATH", "x", "sample") == "sample"
  {
    CaseOfX();
    TokenPathPass1("x");
    TokenPathPass2("x");
    TokenPathPass3("X");
    TokenPathPass4("sample");
    ReplaceAllWhole("X_MODULE_PATH", "sample");
  }

  lemma TokenNamePasses(r1: string, r2: string, m: string)
    ensures ReplaceAll("sample", "Sample", r1) == "sample"
    ensures ReplaceAll("x", "SAMPLE", r2) == "x"
    ensures ReplaceAll("x", "SAMPLE_MODULE_PATH", m) == "x"
    ensures ReplaceAll("x", "X_MODULE_PATH", m) == "x"
  {
    ReplaceAllNoLead("sample", "Sample", r1);
    ReplaceAllNoLead("x", "SAMPLE", r2);
    ReplaceAllNoLead("x", "SAMPLE_MODULE_PATH", m);
    ReplaceAllNoLead("x", "X_MODULE_PATH", m);
  }

  /** Rewriting that output again renames the token: `sample` becomes `x`. */
  lemma FeatureRewriteOfToken()
    ensures FeatureRewrite("sample", "x", "sample") == "x"
  {
    CaseOfX();
    TokenNamePasses("x", "X", "sample");
    ReplaceAllWhole("sample", "x");
  }

  /** Substituting twice with the same name differs from substituting once,
      although the name `x` holds none of the tokens: a module path that
      holds a token brings it back into the output. */
  lemma FeatureRewriteNotIdempotent()
    ensures FeatureRewrite("SAMPLE_MODULE_PATH", "x", "sample") == "sample"
    ensures FeatureRewrite(FeatureRewrite("SAMPLE_MODULE_PATH", "x", "sample"), "x", "sample") == "x"
    ensures !Contains("x", "Sample") && !Contains("x", "sample") && !Contains("x", "SAMPLE")
  {
    FeatureRewriteTokenModulePath();
    FeatureRewriteOfToken();
  }

  // ---------------------------------------------------------------------
  // A widget template renamed to `UserCard`
  // ---------------------------------------------------------------------

  lemma WidgetStep0(n: string, l: string)
    ensures WidgetPass("SampleWidget uses sampleStore", n, l) == n + WidgetPass("Widget uses sampleStore", n, l)
  {
    assert "SampleWidget uses sampleStore" == "Sample" + "Widget uses sampleStore";
    WidgetHit("Sample", "Widget uses sampleStore", n, l);
  }

  lemma WidgetStep1(n: string, l: string)
    ensures WidgetPass("Widget uses sampleStore", n, l) == "Widget u" + WidgetPass("ses sampleStore", n, l)
  {
    assert "Widget uses sampleStore" == "Widget u" + "ses sampleStore";
    WidgetSkip("Widget u", "ses sampleStore", n, l);
  }

  lemma WidgetStep2(n: string, l: string)
    ensures WidgetPass("ses sampleStore", n, l) == "s" + WidgetPass("es sampleStore", n, l)
  {
    assert "ses sampleStore" == ['s'] + "es sampleStore";
    WidgetMiss('s', "es sampleStore", n, l);
  }

  lemma WidgetStep3(n: string, l: string)
    ensures WidgetPass("es sampleStore", n, l) == "e" + WidgetPass("s sampleStore", n, l)
  {
    assert "es sampleStore" == "e" + "s sampleStore";
    WidgetSkip("e", "s sampleStore", n, l);
  }

  lemma WidgetStep4(n: string, l: string)
    ensures WidgetPass("s sampleStore", n, l) == "s" + WidgetPass(" sampleStore", n, l)
  {
    assert "s sampleStore" == ['s'] + " sampleStore";
    WidgetMiss('s', " sampleStore", n, l);
  }

  lemma WidgetStep5(n: string, l: string)
    ensures WidgetPass(" sampleStore", n, l) == " " + WidgetPass("sampleStore", n, l)
  {
    assert " sampleStore" == " " + "sampleStore";
    WidgetSkip(" ", "sampleStore", n, l);
  }

  lemma WidgetStep6(n: string, l: string)
    ensures WidgetPass("sampleStore", n, l) == l + WidgetPass("Store", n, l)
  {
    assert "sampleStore" == "sample" + "Store";
    WidgetHit("sample", "Store", n, l);
  }

  lemma WidgetStep7(n: string, l: string)
    ensures WidgetPass("Store", n, l) == "Store"
  {
    assert "Store" == ['S'] + "tore";
    WidgetMiss('S', "tore", n, l);
    WidgetNoLead("tore", n, l);
  }

  lemma WidgetSteps(n: string, l: string)
    ensures WidgetPass("SampleWidget uses sampleStore", n, l)
         == n + ("Widget u" + ("s" + ("e" + ("s" + (" " + (l + "Store"))))))
  {
    WidgetStep0(n, l);
    WidgetStep1(n, l);
    WidgetStep2(n, l);
    WidgetStep3(n, l);
    WidgetStep4(n, l);
    WidgetStep5(n, l);
    WidgetStep6(n, l);
    WidgetStep7(n, l);
  }

  lemma WidgetResult()
    ensures "UserCard" + ("Widget u" + ("s" + ("e" + ("s" + (" " + ("userCard" + "Store"))))))
         == "UserCardWidget uses userCardStore"
  {
  }

  lemma LowerFirstUserCard()
    ensures LowerFirst("UserCard") == "userCard"
  {
    var l := LowerFirst("UserCard");
    assert l[0] == 'u';
    assert l[1..] == "serCard";
    assert "userCard" == ['u'] + "serCard";
  }

  lemma WidgetRewriteExample()
    ensures WidgetRewrite("SampleWidget uses sampleStore", "UserCard") == "UserCardWidget uses userCardStore"
  {
    LowerFirstUserCard();
    WidgetSteps("UserCard", "userCard");
    WidgetResult();
  }
}
