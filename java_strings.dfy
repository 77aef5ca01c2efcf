/** The string operations of the Java platform and of Spring's StringUtils
    that the commands rely on, with the same edge cases (empty strings,
    null arguments, empty search targets). Characters are Dafny chars;
    case folding is ASCII only. */
module JavaStrings {
  import opened Wrappers

  /** Character.isWhitespace: the ASCII controls TAB..CR and FS..US, and the
      Unicode space, line and paragraph separators except the non-breaking
      ones (U+00A0, U+2007, U+202F). */
  predicate IsWhitespace(c: char)
    ensures c == '\U{00A0}' || c == '\U{2007}' || c == '\U{202F}' ==> !IsWhitespace(c)
    ensures IsWhitespace(c) ==> c <= ' ' || c >= '\U{1680}'
  {
    || c == ' ' || ('\t' <= c <= '\r') || ('\U{001C}' <= c <= '\U{001F}')
    || c == '\U{1680}' || ('\U{2000}' <= c <= '\U{2006}') || ('\U{2008}' <= c <= '\U{200A}')
    || c == '\U{2028}' || c == '\U{2029}' || c == '\U{205F}' || c == '\U{3000}'
  }

  /** StringUtils.hasText on a non-null string: some character is not whitespace. */
  predicate HasText(s: string)
    ensures !HasText(s) <==> forall i :: 0 <= i < |s| ==> IsWhitespace(s[i])
  {
    exists i :: 0 <= i < |s| && !IsWhitespace(s[i])
  }

  /** StringUtils.hasText on a reference that may be null. */
  predicate HasTextOpt(s: Option<string>)
    ensures HasTextOpt(s) ==> s.Some? && s.value != []
  {
    s.Some? && HasText(s.value)
  }

  /** String.startsWith */
  predicate StartsWith(s: string, prefix: string) {
    |prefix| <= |s| && s[..|prefix|] == prefix
  }

  /** String.contains: the target occurs at some position (the empty target
      occurs everywhere). */
  predicate Contains(s: string, target: string) {
    exists i :: 0 <= i <= |s| - |target| && StartsWith(s[i..], target)
  }

  /** The first position at or after `from` whose character is above U+0020. */
  function SkipBlanks(s: string, from: nat): (st: nat)
    requires from <= |s|
    ensures from <= st <= |s|
    ensures forall i :: from <= i < st ==> s[i] <= ' '
    ensures st < |s| ==> s[st] > ' '
    decreases |s| - from
  {
    if from < |s| && s[from] <= ' ' then SkipBlanks(s, from + 1) else from
  }

  /** The end of the text in s[st..len] once trailing characters at or
      below U+0020 are dropped. */
  function DropTrailingBlanks(s: string, st: nat, len: nat): (e: nat)
    requires st <= len <= |s|
    ensures st <= e <= len
    ensures forall i :: e <= i < len ==> s[i] <= ' '
    ensures st < e ==> s[e - 1] > ' '
    decreases len
  {
    if st < len && s[len - 1] <= ' ' then DropTrailingBlanks(s, st, len - 1) else len
  }

  /** String.trim: the slice of s left once the leading and trailing
      characters at or below U+0020 are dropped. */
  function Trim(s: string): (r: string)
    ensures |r| <= |s|
    ensures r == [] || (r[0] > ' ' && r[|r| - 1] > ' ')
  {
    var st := SkipBlanks(s, 0);
    s[st..DropTrailingBlanks(s, st, |s|)]
  }

  /** trim removes characters at or below U+0020 from the two ends only:
      what is left is a contiguous slice of the input. */
  lemma TrimIsMiddle(s: string)
    ensures exists st, e ::
      && 0 <= st <= e <= |s|
      && Trim(s) == s[st..e]
      && (forall i :: 0 <= i < st ==> s[i] <= ' ')
      && (forall i :: e <= i < |s| ==> s[i] <= ' ')
  {
    var st := SkipBlanks(s, 0);
    assert Trim(s) == s[st..DropTrailingBlanks(s, st, |s|)];
  }

  lemma TrimIdempotent(s: string)
    ensures Trim(Trim(s)) == Trim(s)
  {
  }

  /** Character.toUpperCase, restricted to ASCII letters. */
  function ToUpper(c: char): char {
    if 'a' <= c <= 'z' then (c as int - 32) as char else c
  }

  /** Character.toLowerCase, restricted to ASCII letters. */
  function ToLower(c: char): char {
    if 'A' <= c <= 'Z' then (c as int + 32) as char else c
  }

  /** The per-character test of String.regionMatches(ignoreCase = true). */
  predicate CharEqualsIgnoreCase(a: char, b: char)
    ensures CharEqualsIgnoreCase(a, b) <==> ToLower(a) == ToLower(b)
  {
    a == b || ToUpper(a) == ToUpper(b) || ToLower(ToUpper(a)) == ToLower(ToUpper(b))
  }

  /** String.equalsIgnoreCase on non-null strings. */
  predicate EqualsIgnoreCase(a: string, b: string) {
    |a| == |b| && forall i :: 0 <= i < |a| ==> CharEqualsIgnoreCase(a[i], b[i])
  }

  /** Two strings are equal ignoring case exactly when they have the same
      length and fold to the same lower-case characters. */
  lemma EqualsIgnoreCaseFolds(a: string, b: string)
    ensures EqualsIgnoreCase(a, b) <==> |a| == |b| && forall i :: 0 <= i < |a| ==> ToLower(a[i]) == ToLower(b[i])
  {
  }

  /** equalsIgnoreCase is an equivalence relation. */
  lemma EqualsIgnoreCaseEquivalence(a: string, b: string, c: string)
    ensures EqualsIgnoreCase(a, a)
    ensures EqualsIgnoreCase(a, b) ==> EqualsIgnoreCase(b, a)
    ensures EqualsIgnoreCase(a, b) && EqualsIgnoreCase(b, c) ==> EqualsIgnoreCase(a, c)
  {
  }

  /** String.replace(CharSequence, CharSequence): every occurrence of the
      target, scanning left to right without overlap, becomes the
      replacement. An empty target matches before every character and at
      the end. A target that does not occur leaves the string as it is. */
  function Replace(s: string, target: string, replacement: string): (r: string)
    ensures !Contains(s, target) ==> r == s
    ensures target == [] ==> |r| == |s| + (|s| + 1) * |replacement|
  {
    if target == [] then
      assert StartsWith(s[0..], target);
      Interleave(s, replacement)
    else if Contains(s, target) then ReplaceScan(s, target, replacement)
    else
      ReplaceAbsent(s, target, replacement);
      ReplaceScan(s, target, replacement)
  }

  /** The empty-target case of Replace: the replacement before each
      character and at the end; an empty replacement changes nothing. */
  function Interleave(s: string, replacement: string): (r: string)
    ensures |r| == |s| + (|s| + 1) * |replacement|
    ensures replacement == [] ==> r == s
  {
    if s == [] then replacement else replacement + [s[0]] + Interleave(s[1..], replacement)
  }

  /** The non-empty-target case of Replace; a target replaced by itself
      changes nothing. */
  function ReplaceScan(s: string, target: string, replacement: string): (r: string)
    requires target != []
    ensures replacement == target ==> r == s
    decreases |s|
  {
    if s == [] then []
    else if StartsWith(s, target) then
      assert s == s[..|target|] + s[|target|..];
      replacement + ReplaceScan(s[|target|..], target, replacement)
    else [s[0]] + ReplaceScan(s[1..], target, replacement)
  }

  /** An occurrence past the first character is an occurrence in the whole string. */
  lemma ContainsTail(s: string, target: string)
    requires s != []
    ensures Contains(s[1..], target) ==> Contains(s, target)
  {
  }

  /** Scanning for a non-empty target that does not occur changes nothing. */
  lemma {:induction false} ReplaceAbsent(s: string, target: string, replacement: string)
    requires target != [] && !Contains(s, target)
    ensures ReplaceScan(s, target, replacement) == s
  {
    if s != [] {
      assert s[0..] == s;
      ContainsTail(s, target);
      ReplaceAbsent(s[1..], target, replacement);
    }
  }

  /** Replacing a target by itself changes nothing, for every target. */
  lemma ReplaceSelf(s: string, target: string)
    ensures Replace(s, target, target) == s
  {
  }

  /** After the first occurrence of a non-empty target, String.replace goes
      on replacing in the rest of the line: it does not stop at one token. */
  lemma ReplaceContinuesAfterOccurrence(x: string, t: string, y: string, r: string)
    requires t != []
    requires forall i :: 0 <= i < |x| ==> !StartsWith((x + t + y)[i..], t)
    ensures Replace(x + t + y, t, r) == x + r + Replace(y, t, r)
  {
    ScanContinuesAfterOccurrence(x, t, y, r);
  }

  lemma {:induction false} ScanContinuesAfterOccurrence(x: string, t: string, y: string, r: string)
    requires t != []
    requires forall i :: 0 <= i < |x| ==> !StartsWith((x + t + y)[i..], t)
    ensures ReplaceScan(x + t + y, t, r) == x + r + ReplaceScan(y, t, r)
  {
    var s := x + t + y;
    if x == [] {
      assert s == t + y;
      assert s[..|t|] == t && s[|t|..] == y;
    } else {
      assert !StartsWith(s[0..], t);
      assert s[0..] == s;
      assert s[1..] == x[1..] + t + y;
      forall i | 0 <= i < |x[1..]|
        ensures !StartsWith((x[1..] + t + y)[i..], t)
      {
        assert (x[1..] + t + y)[i..] == s[i + 1..];
      }
      ScanContinuesAfterOccurrence(x[1..], t, y, r);
      assert s[0] == x[0];
      assert x + r + ReplaceScan(y, t, r) == [x[0]] + (x[1..] + r + ReplaceScan(y, t, r));
    }
  }


  /** String.replace replaces every occurrence, not only the first: both
      occurrences on one line are rewritten. */
  lemma ReplaceRewritesEveryOccurrence()
    ensures Replace("demo-demo", "demo", "app") == "app-app"
  {
    var s := "demo-demo";
    assert StartsWith(s, "demo");
    assert s[4..] == "-demo";
    assert "-demo"[..4][0] != "demo"[0];
    assert "-demo"[1..] == "demo";
    assert StartsWith("demo", "demo");
    assert "demo"[4..] == [];
  }
}
