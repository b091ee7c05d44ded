/** Character classes and trimming with the meaning JavaScript gives them:
    `String.prototype.trim`, and the regular-expression escapes `\s` and
    `\w` (no `u` flag). */
module Text {

  /** ECMAScript white space: WhiteSpace and LineTerminator.  `trim` removes
      exactly these characters and `\s` matches exactly these. */
  predicate IsSpace(c: char) {
    || c == '\t' || c == '\n' || c == '\U{000B}' || c == '\U{000C}' || c == '\r'
    || c == ' ' || c == '\U{00A0}' || c == '\U{1680}'
    || ('\U{2000}' <= c <= '\U{200A}')
    || c == '\U{2028}' || c == '\U{2029}' || c == '\U{202F}' || c == '\U{205F}'
    || c == '\U{3000}' || c == '\U{FEFF}'
  }

  /** `\w`: ASCII letters, digits and the underscore. */
  predicate IsWordChar(c: char) {
    ('a' <= c <= 'z') || ('A' <= c <= 'Z') || ('0' <= c <= '9') || c == '_'
  }

  predicate AllSpace(s: string) {
    forall i :: 0 <= i < |s| ==> IsSpace(s[i])
  }

  predicate NoSpace(s: string) {
    forall i :: 0 <= i < |s| ==> !IsSpace(s[i])
  }

  predicate AllWord(s: string) {
    forall i :: 0 <= i < |s| ==> IsWordChar(s[i])
  }

  /** The length of the longest prefix of `s` made of characters that satisfy
      `p`: what a greedy `p*` consumes. */
  function Span(s: string, p: char -> bool): (n: nat)
    ensures n <= |s|
    ensures forall i :: 0 <= i < n ==> p(s[i])
    ensures n < |s| ==> !p(s[n])
  {
    if s != [] && p(s[0]) then 1 + Span(s[1..], p) else 0
  }

  /** A run of `p`-characters followed by something that is not one is
      exactly what `Span` measures. */
  lemma {:induction false} SpanOf(a: string, b: string, p: char -> bool)
    requires forall i :: 0 <= i < |a| ==> p(a[i])
    requires b == [] || !p(b[0])
    ensures Span(a + b, p) == |a|
  {
    if a != [] {
      assert (a + b)[0] == a[0] && (a + b)[1..] == a[1..] + b;
      SpanOf(a[1..], b, p);
    } else {
      assert a + b == b;
    }
  }

  /** Ends that are not white space: what a trimmed string looks like. */
  predicate IsTrimmed(s: string) {
    s == [] || (!IsSpace(s[0]) && !IsSpace(s[|s| - 1]))
  }

  function TrimStart(s: string): (r: string)
    ensures |r| <= |s| && r == s[|s| - |r|..]
    ensures AllSpace(s[..|s| - |r|])
    ensures r == [] || !IsSpace(r[0])
  {
    s[Span(s, IsSpace)..]
  }

  function TrimEnd(s: string): (r: string)
    ensures |r| <= |s| && r == s[..|r|]
    ensures AllSpace(s[|r|..])
    ensures r == [] || !IsSpace(r[|r| - 1])
  {
    if s != [] && IsSpace(s[|s| - 1]) then
      var r := TrimEnd(s[..|s| - 1]);
      assert s[|r|..] == s[..|s| - 1][|r|..] + [s[|s| - 1]];
      r
    else
      s
  }

  /** `String.prototype.trim`. */
  function Trim(s: string): (r: string)
    ensures IsTrimmed(r)
    ensures |r| <= |s|
  {
    TrimEnd(TrimStart(s))
  }

  /** Removing leading white space from `a + t` where `a` is all white space
      and `t` does not start with it leaves `t`. */
  lemma TrimStartPadded(a: string, t: string)
    requires AllSpace(a)
    requires t == [] || !IsSpace(t[0])
    ensures TrimStart(a + t) == t
  {
    SpanOf(a, t, IsSpace);
    assert (a + t)[|a|..] == t;
  }

  /** Removing trailing white space from `t + b` where `b` is all white space
      and `t` does not end with it leaves `t`. */
  lemma TrimEndPadded(t: string, b: string)
    requires AllSpace(b)
    requires t == [] || !IsSpace(t[|t| - 1])
    ensures TrimEnd(t + b) == t
  {
    var s := t + b;
    assert s[..|t|] == t;
  }

  /** `trim` is determined by its characterisation: whatever surrounds a
      trimmed string with white space, trimming gives that string back. */
  lemma TrimPadded(a: string, t: string, b: string)
    requires AllSpace(a) && AllSpace(b) && IsTrimmed(t)
    ensures Trim(a + t + b) == t
  {
    if t == [] {
      AllSpaceConcat(a, b);
      assert a + t + b == a + b + [];
      TrimStartPadded(a + b, []);
    } else {
      assert a + t + b == a + (t + b);
      TrimStartPadded(a, t + b);
      TrimEndPadded(t, b);
    }
  }

  lemma AllSpaceConcat(a: string, b: string)
    requires AllSpace(a) && AllSpace(b)
    ensures AllSpace(a + b)
  {
    forall i | 0 <= i < |a + b| ensures IsSpace((a + b)[i]) {
      if i >= |a| { assert (a + b)[i] == b[i - |a|]; }
    }
  }

  /** Every string is its trimmed form with white space around it. */
  lemma TrimSplit(s: string) returns (pre: string, suf: string)
    ensures AllSpace(pre) && AllSpace(suf)
    ensures s == pre + Trim(s) + suf
  {
    var s1 := TrimStart(s);
    var t := TrimEnd(s1);
    pre, suf := s[..|s| - |s1|], s1[|t|..];
    CutAt(s, |s| - |s1|);
    CutAt(s1, |t|);
    Assoc(pre, t, suf);
  }

  /** White space added around a string does not change what `trim` gives. */
  lemma TrimIgnoresPadding(a: string, s: string, b: string)
    requires AllSpace(a) && AllSpace(b)
    ensures Trim(a + s + b) == Trim(s)
  {
    var pre, suf := TrimSplit(s);
    var t := Trim(s);
    AllSpaceConcat(a, pre);
    AllSpaceConcat(suf, b);
    Regroup(a, pre, t, suf, b);
    TrimPadded(a + pre, t, suf + b);
  }

  lemma TrimIdempotent(s: string)
    ensures Trim(Trim(s)) == Trim(s)
  {
    var t := Trim(s);
    assert [] + t + [] == t;
    TrimPadded([], t, []);
  }

  // Small facts about strings, kept apart so that proofs using them do not
  // have to rediscover them.

  lemma Assoc(a: string, b: string, c: string)
    ensures a + b + c == a + (b + c)
  {
  }

  lemma CutAt(s: string, k: nat)
    requires k <= |s|
    ensures s == s[..k] + s[k..]
  {
  }

  lemma Regroup(a: string, b: string, c: string, d: string, e: string)
    ensures a + (b + c + d) + e == (a + b) + c + (d + e)
  {
  }

  lemma NoSpaceConcat(a: string, b: string)
    requires NoSpace(a) && NoSpace(b)
    ensures NoSpace(a + b)
  {
    forall i | 0 <= i < |a + b| ensures !IsSpace((a + b)[i]) {
      if i >= |a| { assert (a + b)[i] == b[i - |a|]; }
    }
  }

  lemma DropPrefix(a: string, b: string)
    ensures (a + b)[|a|..] == b
  {
  }
}
