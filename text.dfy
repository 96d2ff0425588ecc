/**
 * Trimming of surrounding white space, as the two runtimes of the system do it.
 * JavaScript's `String.prototype.trim` (the browser store) and Java's `String.trim`
 * (the backend service) remove different sets of characters, so trimming is defined
 * once over the choice of white-space set and instantiated twice.
 */
module Text {

  /** WhiteSpace and LineTerminator code points of ECMA-262, the characters `trim()` removes. */
  predicate IsJsSpace(c: char) {
    || c == '\t' || c == '\n' || c == '\U{000B}' || c == '\U{000C}' || c == '\r' || c == ' '
    || c == '\U{00A0}' || c == '\U{1680}' || ('\U{2000}' <= c <= '\U{200A}')
    || c == '\U{2028}' || c == '\U{2029}' || c == '\U{202F}' || c == '\U{205F}'
    || c == '\U{3000}' || c == '\U{FEFF}'
  }

  /** Java's `String.trim` removes every character whose code is at most U+0020. */
  predicate IsJavaSpace(c: char) {
    c <= ' '
  }

  /** Which runtime's notion of white space is meant. */
  datatype Whitespace = JsWhitespace | JavaWhitespace

  predicate IsSpace(ws: Whitespace, c: char) {
    match ws
    case JsWhitespace => IsJsSpace(c)
    case JavaWhitespace => IsJavaSpace(c)
  }

  /** Every character of `s` is a space. */
  predicate Blank(s: string, ws: Whitespace) {
    forall i :: 0 <= i < |s| ==> IsSpace(ws, s[i])
  }

  /** Neither end of `s` is a space: what trimming produces. */
  predicate Trimmed(s: string, ws: Whitespace) {
    s == [] || (!IsSpace(ws, s[0]) && !IsSpace(ws, s[|s| - 1]))
  }

  /**
   * `s` without leading and trailing spaces. The result is empty exactly when `s` is
   * blank, never starts or ends with a space, and is `s` itself when `s` has no space at
   * either end.
   */
  function Trim(s: string, ws: Whitespace): (r: string)
    ensures |r| <= |s|
    ensures r == [] <==> Blank(s, ws)
    ensures Trimmed(r, ws)
    ensures Trimmed(s, ws) ==> r == s
    decreases |s|
  {
    if s != [] && IsSpace(ws, s[0]) then
      Trim(s[1..], ws)
    else if s != [] && IsSpace(ws, s[|s| - 1]) then
      Trim(s[..|s| - 1], ws)
    else
      s
  }

  lemma TrimDropsFirst(s: string, ws: Whitespace)
    requires s != [] && IsSpace(ws, s[0])
    ensures Trim(s, ws) == Trim(s[1..], ws)
  {
  }

  lemma TrimDropsLast(s: string, ws: Whitespace)
    requires s != [] && !IsSpace(ws, s[0]) && IsSpace(ws, s[|s| - 1])
    ensures Trim(s, ws) == Trim(s[..|s| - 1], ws)
  {
  }

  lemma ConcatRegroup(a: string, b: string, c: string, d: string)
    ensures a + (b + c + d) == (a + b) + c + d
    ensures (a + b + c) + d == a + b + (c + d)
  {
  }

  lemma BlankConcat(a: string, b: string, ws: Whitespace)
    requires Blank(a, ws) && Blank(b, ws)
    ensures Blank(a + b, ws)
  {
    assert forall i :: 0 <= i < |a + b| ==> (a + b)[i] == if i < |a| then a[i] else b[i - |a|];
  }

  /** A leading space joins the blank prefix of what follows it. */
  lemma SplitFront(s: string, ws: Whitespace, pre: string, r: string, post: string)
    requires s != [] && IsSpace(ws, s[0])
    requires s[1..] == pre + r + post && Blank(pre, ws)
    ensures s == ([s[0]] + pre) + r + post && Blank([s[0]] + pre, ws)
  {
    assert s == [s[0]] + s[1..];
    ConcatRegroup([s[0]], pre, r, post);
    BlankConcat([s[0]], pre, ws);
  }

  /** A trailing space joins the blank suffix of what precedes it. */
  lemma SplitBack(s: string, ws: Whitespace, pre: string, r: string, post: string)
    requires s != [] && IsSpace(ws, s[|s| - 1])
    requires s[..|s| - 1] == pre + r + post && Blank(post, ws)
    ensures s == pre + r + (post + [s[|s| - 1]]) && Blank(post + [s[|s| - 1]], ws)
  {
    assert s == s[..|s| - 1] + [s[|s| - 1]];
    ConcatRegroup(pre, r, post, [s[|s| - 1]]);
    BlankConcat(post, [s[|s| - 1]], ws);
  }

  /** What trimming removes is blank: `s` is a blank prefix, the trimmed text, and a blank suffix. */
  lemma {:induction false} TrimSplits(s: string, ws: Whitespace) returns (pre: string, post: string)
    ensures s == pre + Trim(s, ws) + post
    ensures Blank(pre, ws) && Blank(post, ws)
    decreases |s|
  {
    if s != [] && IsSpace(ws, s[0]) {
      var pre', post' := TrimSplits(s[1..], ws);
      TrimDropsFirst(s, ws);
      SplitFront(s, ws, pre', Trim(s, ws), post');
      pre, post := [s[0]] + pre', post';
    } else if s != [] && IsSpace(ws, s[|s| - 1]) {
      var pre', post' := TrimSplits(s[..|s| - 1], ws);
      TrimDropsLast(s, ws);
      SplitBack(s, ws, pre', Trim(s, ws), post');
      pre, post := pre', post' + [s[|s| - 1]];
    } else {
      pre, post := [], [];
    }
  }

  /** JavaScript's `trim()`. */
  function JsTrim(s: string): string {
    Trim(s, JsWhitespace)
  }

  /** Java's `trim()`. */
  function JavaTrim(s: string): string {
    Trim(s, JavaWhitespace)
  }

  /** Trimming twice is trimming once. */
  lemma TrimIdempotent(s: string, ws: Whitespace)
    ensures Trim(Trim(s, ws), ws) == Trim(s, ws)
  {
  }

  /** No entry occurs twice. */
  predicate Distinct(s: seq<string>) {
    forall i, j :: 0 <= i < j < |s| ==> s[i] != s[j]
  }
}
