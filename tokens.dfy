/** Token substitution: the rewriters that turn a template's placeholder
    tokens into a concrete feature or widget name. They apply to file
    contents only. */
module Tokens {
  import opened Text

  // ---------------------------------------------------------------------
  // Feature templates (createFeature.ts, copyFiles)
  // ---------------------------------------------------------------------

  /** The content rewrite of a feature template file: five global literal
      replacements, each applied to the output of the one before. */
  function FeatureRewrite(content: string, name: string, modulePath: string): string
  {
    var s1 := ReplaceAll(content, "Sample", name);
    var s2 := ReplaceAll(s1, "sample", Lower(name));
    var s3 := ReplaceAll(s2, "SAMPLE", Upper(name));
    var s4 := ReplaceAll(s3, "SAMPLE_MODULE_PATH", modulePath);
    ReplaceAll(s4, Upper(name) + "_MODULE_PATH", modulePath)
  }

  lemma ModulePathTokenAbsent(content: string)
    requires !Contains(content, "SAMPLE")
    ensures !Contains(content, "SAMPLE_MODULE_PATH")
  {
    if Contains(content, "SAMPLE_MODULE_PATH") {
      assert "SAMPLE_MODULE_PATH" == "SAMPLE" + "_MODULE_PATH";
      ContainsPrefixOfPattern(content, "SAMPLE", "_MODULE_PATH");
    }
  }

  /** Content that holds none of the tokens is written back unchanged.
      (`SAMPLE_MODULE_PATH` needs no hypothesis of its own: it contains
      `SAMPLE`.) */
  lemma FeatureRewriteUntouched(content: string, name: string, modulePath: string)
    requires !Contains(content, "Sample") && !Contains(content, "sample")
    requires !Contains(content, "SAMPLE")
    requires !Contains(content, Upper(name) + "_MODULE_PATH")
    ensures FeatureRewrite(content, name, modulePath) == content
  {
    ReplaceAllAbsent(content, "Sample", name);
    ReplaceAllAbsent(content, "sample", Lower(name));
    ReplaceAllAbsent(content, "SAMPLE", Upper(name));
    ModulePathTokenAbsent(content);
    ReplaceAllAbsent(content, "SAMPLE_MODULE_PATH", modulePath);
    ReplaceAllAbsent(content, Upper(name) + "_MODULE_PATH", modulePath);
  }

  // ---------------------------------------------------------------------
  // Widget templates (widget/add.ts)
  // ---------------------------------------------------------------------

  /** `name ? name[0].toLowerCase() + name.slice(1) : name`: only the first
      character changes case; the empty name stays empty. */
  function LowerFirst(name: string): (r: string)
    ensures |r| == |name|
    ensures |name| > 0 ==> r[0] == LowerChar(name[0]) && r[1..] == name[1..]
  {
    if name == "" then name else [LowerChar(name[0])] + name[1..]
  }

  /** The alternative of `Sample|sample` that matches at the front of s; the
      alternatives are tried in order. */
  function WidgetMatch(s: string): (r: Option<string>)
    ensures r.Some? <==> "Sample" <= s || "sample" <= s
    ensures r.Some? ==> r.value <= s && (r.value == "Sample" || r.value == "sample")
  {
    if "Sample" <= s then Some("Sample")
    else if "sample" <= s then Some("sample")
    else None
  }

  /** The replacement callback, with its `return match` fallback. */
  function Callback(m: string, name: string, lowerCaseName: string): string
  {
    if m == "Sample" then name
    else if m == "sample" then lowerCaseName
    else m
  }

  /** `s.replace(/Sample|sample/g, callback)`: one left-to-right scan; the
      text a callback returns is not scanned again. */
  function WidgetPass(s: string, name: string, lowerCaseName: string): string
    decreases |s|
  {
    if s == [] then []
    else match WidgetMatch(s)
      case Some(m) => Callback(m, name, lowerCaseName) + WidgetPass(s[|m|..], name, lowerCaseName)
      case None => [s[0]] + WidgetPass(s[1..], name, lowerCaseName)
  }

  function WidgetRewrite(content: string, name: string): string
  {
    WidgetPass(content, name, LowerFirst(name))
  }

  /** Every match handed to the callback is one of the two tokens, so the
      callback's fallback branch is never taken. */
  lemma CallbackFallbackUnreachable(s: string, name: string, lowerCaseName: string)
    requires WidgetMatch(s).Some?
    ensures Callback(WidgetMatch(s).value, name, lowerCaseName)
         == if "Sample" <= s then name else lowerCaseName
  {
  }

  /** Content without either token comes out unchanged. */
  lemma {:induction false} WidgetUntouched(s: string, name: string, lowerCaseName: string)
    requires !Contains(s, "Sample") && !Contains(s, "sample")
    ensures WidgetPass(s, name, lowerCaseName) == s
    decreases |s|
  {
    if s != [] {
      PrefixIsOccurrence(s, "Sample");
      PrefixIsOccurrence(s, "sample");
      forall i | OccursAt(s[1..], i, "Sample") ensures false {
        OccursAtShift(s, "Sample", i);
      }
      forall i | OccursAt(s[1..], i, "sample") ensures false {
        OccursAtShift(s, "sample", i);
      }
      WidgetUntouched(s[1..], name, lowerCaseName);
      assert s == [s[0]] + s[1..];
    }
  }

  lemma {:induction false} WidgetSkip(a: string, b: string, name: string, lowerCaseName: string)
    requires forall k :: 0 <= k < |a| ==> a[k] != 'S' && a[k] != 's'
    ensures WidgetPass(a + b, name, lowerCaseName) == a + WidgetPass(b, name, lowerCaseName)
    decreases |a|
  {
    if a != [] {
      var s := a + b;
      assert s[0] == a[0];
      assert !("Sample" <= s) && !("sample" <= s);
      assert s[1..] == a[1..] + b;
      WidgetSkip(a[1..], b, name, lowerCaseName);
      assert WidgetPass(s, name, lowerCaseName) == [a[0]] + (a[1..] + WidgetPass(b, name, lowerCaseName));
      assert a == [a[0]] + a[1..];
    } else {
      assert a + b == b;
    }
  }

  /** After a token the scan resumes right behind it. */
  lemma WidgetHit(t: string, b: string, name: string, lowerCaseName: string)
    requires t == "Sample" || t == "sample"
    ensures WidgetPass(t + b, name, lowerCaseName)
         == (if t == "Sample" then name else lowerCaseName) + WidgetPass(b, name, lowerCaseName)
  {
    assert t <= t + b;
    assert (t + b)[|t|..] == b;
  }

  lemma WidgetMiss(c: char, b: string, name: string, lowerCaseName: string)
    requires |b| >= 1 && b[0] != 'a'
    ensures WidgetPass([c] + b, name, lowerCaseName) == [c] + WidgetPass(b, name, lowerCaseName)
  {
    assert ([c] + b)[1] == b[0];
    assert ([c] + b)[1..] == b;
  }

  lemma WidgetNoLead(s: string, name: string, lowerCaseName: string)
    requires forall k :: 0 <= k < |s| ==> s[k] != 'S' && s[k] != 's'
    ensures WidgetPass(s, name, lowerCaseName) == s
  {
    WidgetSkip(s, [], name, lowerCaseName);
    assert s + [] == s;
  }

  /** Other casings are not tokens of the widget rewrite. */
  lemma WidgetIgnoresUpperCase(name: string)
    ensures WidgetRewrite("SAMPLE", name) == "SAMPLE"
  {
    assert "SAMPLE" == ['S'] + "AMPLE";
    WidgetMiss('S', "AMPLE", name, LowerFirst(name));
    WidgetNoLead("AMPLE", name, LowerFirst(name));
  }

  /** The single pass does not rescan replacement text: with the name
      `sampleBox` one pass yields `sampleBox`, whereas two successive global
      replacements (Sample, then sample) would yield `sampleBoxBox`. */
  lemma WidgetSinglePass()
    ensures WidgetRewrite("Sample", "sampleBox") == "sampleBox"
    ensures ReplaceAll(ReplaceAll("Sample", "Sample", "sampleBox"), "sample", LowerFirst("sampleBox")) == "sampleBoxBox"
  {
    var n := "sampleBox";
    assert LowerFirst(n) == n by {
      assert LowerFirst(n)[0] == 's';
      assert n == ['s'] + n[1..];
    }
    WidgetHit("Sample", "", n, n);
    assert "Sample" + "" == "Sample";
    ReplaceAllHit("", "Sample", n);
    assert "Sample" + "" == "Sample";
    assert n == "sample" + "Box";
    ReplaceAllHit("Box", "sample", n);
    ReplaceAllNoLead("Box", "sample", n);
    assert n + "Box" == "sampleBoxBox";
  }

  // ---------------------------------------------------------------------
  // The rewriter a template copy applies
  // ---------------------------------------------------------------------

  datatype Rewriter = FeatureTokens(name: string, modulePath: string) | WidgetTokens(name: string)

  function Apply(rw: Rewriter, content: string): string
  {
    match rw
    case FeatureTokens(name, modulePath) => FeatureRewrite(content, name, modulePath)
    case WidgetTokens(name) => WidgetRewrite(content, name)
  }
}
