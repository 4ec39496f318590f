/**
 * The string operations the schemas apply before a value is stored: the `trim` and `lowercase`
 * setters, and the whitespace class shared by `String.prototype.trim` and the regular-expression `\s`.
 * Strings are sequences of Unicode scalar values; case mapping covers the ASCII letters only.
 */
module Text {

  /** ECMAScript WhiteSpace and LineTerminator: the characters `trim` removes and `\s` matches. */
  predicate IsWhitespace(c: char) {
    c == '\t' || c == '\n' || c == '\U{000B}' || c == '\U{000C}' || c == '\r' || c == ' '
    || c == '\U{00A0}' || c == '\U{1680}' || ('\U{2000}' <= c <= '\U{200A}')
    || c == '\U{2028}' || c == '\U{2029}' || c == '\U{202F}' || c == '\U{205F}'
    || c == '\U{3000}' || c == '\U{FEFF}'
  }

  /** `s` without its leading whitespace. */
  function TrimStart(s: string): (r: string)
    ensures |r| <= |s| && r == s[|s| - |r|..]
    ensures forall i :: 0 <= i < |s| - |r| ==> IsWhitespace(s[i])
    ensures r == [] || !IsWhitespace(r[0])
  {
    if s != [] && IsWhitespace(s[0]) then TrimStart(s[1..]) else s
  }

  /** `s` without its trailing whitespace. */
  function TrimEnd(s: string): (r: string)
    ensures |r| <= |s| && r == s[..|r|]
    ensures forall i :: |r| <= i < |s| ==> IsWhitespace(s[i])
    ensures r == [] || !IsWhitespace(r[|r| - 1])
  {
    if s != [] && IsWhitespace(s[|s| - 1]) then TrimEnd(s[..|s| - 1]) else s
  }

  /**
   * The schema's `trim` setter. `TrimSplit` and `TrimOfPadded` below show it is exactly the
   * removal of the leading and trailing whitespace.
   */
  function Trim(s: string): (r: string)
    ensures |r| <= |s|
    ensures r == [] || (!IsWhitespace(r[0]) && !IsWhitespace(r[|r| - 1]))
  {
    TrimEnd(TrimStart(s))
  }

  /** Trimming leaves nothing exactly when the string is all whitespace. */
  lemma TrimEmptyIff(s: string)
    ensures Trim(s) == [] <==> forall i :: 0 <= i < |s| ==> IsWhitespace(s[i])
  {
    var t := TrimStart(s);
    assert t != [] ==> !IsWhitespace(s[|s| - |t|]);
  }

  /** Neither end of `s` is whitespace. */
  predicate IsTrimmed(s: string) {
    s == [] || (!IsWhitespace(s[0]) && !IsWhitespace(s[|s| - 1]))
  }

  /** A value that `required` accepts and that the `trim` setter leaves as it is. */
  predicate IsTrimmedNonEmpty(s: string) {
    s != "" && IsTrimmed(s)
  }

  /** The strings the `trim` setter leaves unchanged are exactly the trimmed ones. */
  lemma TrimFixedIff(s: string)
    ensures Trim(s) == s <==> IsTrimmed(s)
  {
    if IsTrimmed(s) && s != [] {
      assert TrimStart(s) == s;
      assert TrimEnd(s) == s;
    }
  }

  /** Every character of `s` is whitespace. */
  predicate AllWhitespace(s: string) {
    forall i :: 0 <= i < |s| ==> IsWhitespace(s[i])
  }

  /** Leading whitespace in front of a value that does not start with whitespace is all `TrimStart` removes. */
  lemma {:induction false} TrimStartPadding(a: string, t: string)
    requires AllWhitespace(a)
    requires t == [] || !IsWhitespace(t[0])
    ensures TrimStart(a + t) == t
  {
    if a == [] {
      assert a + t == t;
    } else {
      assert (a + t)[0] == a[0];
      assert (a + t)[1..] == a[1..] + t;
      TrimStartPadding(a[1..], t);
    }
  }

  /** Trailing whitespace behind a value that does not end with whitespace is all `TrimEnd` removes. */
  lemma {:induction false} TrimEndPadding(t: string, b: string)
    requires AllWhitespace(b)
    requires t == [] || !IsWhitespace(t[|t| - 1])
    ensures TrimEnd(t + b) == t
    decreases |b|
  {
    if b == [] {
      assert t + b == t;
    } else {
      assert (t + b)[|t + b| - 1] == b[|b| - 1];
      assert (t + b)[..|t + b| - 1] == t + b[..|b| - 1];
      TrimEndPadding(t, b[..|b| - 1]);
    }
  }

  /** A trimmed value between whitespace on either side is what `trim` gives back. */
  lemma TrimOfPadded(a: string, r: string, b: string)
    requires AllWhitespace(a) && AllWhitespace(b) && IsTrimmed(r)
    ensures Trim(a + r + b) == r
  {
    if r == [] {
      assert a + r + b == (a + b) + [];
      TrimStartPadding(a + b, []);
    } else {
      assert a + r + b == a + (r + b);
      TrimStartPadding(a, r + b);
      TrimEndPadding(r, b);
    }
  }

  /** Cutting a sequence in two and joining the halves gives it back. */
  lemma SplitAt<T>(s: seq<T>, n: nat)
    requires n <= |s|
    ensures s[..n] + s[n..] == s
  {
  }

  /** `TrimStart` takes off a whitespace prefix. */
  lemma TrimStartSplit(s: string) returns (a: string)
    ensures AllWhitespace(a) && s == a + TrimStart(s)
  {
    var t := TrimStart(s);
    a := s[..|s| - |t|];
    SplitAt(s, |s| - |t|);
  }

  /** `TrimEnd` takes off a whitespace suffix. */
  lemma TrimEndSplit(t: string) returns (b: string)
    ensures AllWhitespace(b) && t == TrimEnd(t) + b
  {
    var r := TrimEnd(t);
    b := t[|r|..];
    SplitAt(t, |r|);
    assert AllWhitespace(b) by {
      forall i | 0 <= i < |b|
        ensures IsWhitespace(b[i])
      {
        assert b[i] == t[|r| + i];
      }
    }
  }

  /** Every value is its trimmed form between a whitespace prefix and a whitespace suffix. */
  lemma TrimSplit(s: string) returns (a: string, b: string)
    ensures AllWhitespace(a) && AllWhitespace(b) && s == a + Trim(s) + b
  {
    a := TrimStartSplit(s);
    b := TrimEndSplit(TrimStart(s));
    assert Trim(s) == TrimEnd(TrimStart(s));
    Associate(a, Trim(s), b);
  }

  /** `trim` returns `s` with a whitespace prefix and a whitespace suffix taken off. */
  lemma TrimRemovesOnlyPadding(s: string)
    ensures exists a, b :: AllWhitespace(a) && AllWhitespace(b) && s == a + Trim(s) + b
  {
    var a, b := TrimSplit(s);
    assert AllWhitespace(a) && AllWhitespace(b) && s == a + Trim(s) + b;
  }

  /** Joining two runs of whitespace gives a run of whitespace. */
  lemma AllWhitespaceConcat(x: string, y: string)
    requires AllWhitespace(x) && AllWhitespace(y)
    ensures AllWhitespace(x + y)
  {
    forall i | 0 <= i < |x + y|
      ensures IsWhitespace((x + y)[i])
    {
      if i >= |x| { assert (x + y)[i] == y[i - |x|]; }
    }
  }

  /** Concatenation is associative. */
  lemma Associate<T>(a: seq<T>, r: seq<T>, b: seq<T>)
    ensures a + (r + b) == a + r + b
  {
  }

  /** Moving the padding into the prefix and suffix of a split value. */
  lemma Regroup<T>(p: seq<T>, a: seq<T>, r: seq<T>, b: seq<T>, q: seq<T>)
    ensures p + (a + r + b) + q == (p + a) + r + (b + q)
  {
  }

  /** Whitespace added on either side of a value does not change what `trim` gives. */
  lemma TrimIgnoresPadding(p: string, s: string, q: string)
    requires AllWhitespace(p) && AllWhitespace(q)
    ensures Trim(p + s + q) == Trim(s)
  {
    var a, b := TrimSplit(s);
    AllWhitespaceConcat(p, a);
    AllWhitespaceConcat(b, q);
    Regroup(p, a, Trim(s), b, q);
    TrimOfPadded(p + a, Trim(s), b + q);
  }

  lemma TrimIdempotent(s: string)
    ensures Trim(Trim(s)) == Trim(s)
  {
    var r := Trim(s);
    if r != [] {
      assert TrimStart(r) == r;
      assert TrimEnd(r) == r;
    }
  }

  /** The ASCII case mapping of one character. */
  function LowerChar(c: char): (d: char)
    ensures ('A' <= c <= 'Z') ==> 'a' <= d <= 'z' && d as int - c as int == 32
    ensures !('A' <= c <= 'Z') ==> d == c
  {
    if 'A' <= c <= 'Z' then (c as int + 32) as char else c
  }

  /** The schema's `lowercase` setter. */
  function ToLower(s: string): (r: string)
    ensures |r| == |s|
    ensures forall i :: 0 <= i < |s| ==> r[i] == LowerChar(s[i])
  {
    if s == [] then [] else [LowerChar(s[0])] + ToLower(s[1..])
  }

  /** No ASCII capital letter occurs in `s`. */
  predicate IsLower(s: string) {
    forall i :: 0 <= i < |s| ==> !('A' <= s[i] <= 'Z')
  }

  /** The strings the `lowercase` setter leaves unchanged are exactly the lower-case ones. */
  lemma LowerFixedIff(s: string)
    ensures IsLower(ToLower(s))
    ensures ToLower(s) == s <==> IsLower(s)
  {
    if ToLower(s) == s {
      forall i | 0 <= i < |s|
        ensures !('A' <= s[i] <= 'Z')
      {
        assert ToLower(s)[i] == LowerChar(s[i]);
      }
    }
  }

  /** Lower-casing neither adds nor removes whitespace at the ends. */
  lemma LowerKeepsTrimmed(s: string)
    ensures IsTrimmed(ToLower(s)) <==> IsTrimmed(s)
  {
    if s != [] {
      assert ToLower(s)[0] == LowerChar(s[0]);
      assert ToLower(s)[|s| - 1] == LowerChar(s[|s| - 1]);
    }
  }

  lemma ToLowerIdempotent(s: string)
    ensures ToLower(ToLower(s)) == ToLower(s)
  {
  }

  lemma {:induction false} LowerTrimStart(s: string)
    ensures TrimStart(ToLower(s)) == ToLower(TrimStart(s))
  {
    if s != [] {
      assert IsWhitespace(LowerChar(s[0])) <==> IsWhitespace(s[0]);
      assert ToLower(s)[1..] == ToLower(s[1..]);
      LowerTrimStart(s[1..]);
    }
  }

  lemma {:induction false} LowerTrimEnd(s: string)
    ensures TrimEnd(ToLower(s)) == ToLower(TrimEnd(s))
  {
    if s != [] {
      var n := |s| - 1;
      assert IsWhitespace(LowerChar(s[n])) <==> IsWhitespace(s[n]);
      assert ToLower(s)[..n] == ToLower(s[..n]);
      LowerTrimEnd(s[..n]);
    }
  }

  /** Trimming and lower-casing commute, so the order in which a schema lists the two setters does not matter. */
  lemma LowerCommutesWithTrim(s: string)
    ensures Trim(ToLower(s)) == ToLower(Trim(s))
  {
    LowerTrimStart(s);
    LowerTrimEnd(TrimStart(s));
  }

  /** MongoDB's binary string order: lexicographic by code point. */
  predicate StrLe(a: string, b: string) {
    a == [] || (b != [] && (a[0] < b[0] || (a[0] == b[0] && StrLe(a[1..], b[1..]))))
  }

  lemma {:induction false} StrLeTotal(a: string, b: string)
    ensures StrLe(a, b) || StrLe(b, a)
  {
    if a != [] && b != [] && a[0] == b[0] {
      StrLeTotal(a[1..], b[1..]);
    }
  }

  lemma {:induction false} StrLeTransitive(a: string, b: string, c: string)
    requires StrLe(a, b) && StrLe(b, c)
    ensures StrLe(a, c)
  {
    if a != [] && b != [] && c != [] && a[0] == b[0] == c[0] {
      StrLeTransitive(a[1..], b[1..], c[1..]);
    }
  }
}
