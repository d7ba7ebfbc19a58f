/** Sequence and string helpers shared by the client and the server models:
    the JavaScript `Array.prototype.find`, `String.prototype.includes`,
    `String.prototype.trim` and `Math.min` the source relies on. */
module Seqs {

  datatype Option<+T> = None | Some(value: T)

  /** Index of the first element satisfying `p`, the position `find` stops at. */
  function FirstIndex<T>(s: seq<T>, p: T -> bool): (r: Option<nat>)
    ensures r.Some? ==> r.value < |s| && p(s[r.value])
    ensures r.Some? ==> forall j :: 0 <= j < r.value ==> !p(s[j])
    ensures r.None? <==> forall j :: 0 <= j < |s| ==> !p(s[j])
  {
    if |s| == 0 then None
    else if p(s[0]) then Some(0)
    else match FirstIndex(s[1..], p)
      case None => None
      case Some(i) => Some(i + 1)
  }

  /** `s.includes(sub)`: `sub` occurs in `s` at some position. */
  predicate Contains<T(==)>(s: seq<T>, sub: seq<T>)
  {
    sub <= s || (|s| > 0 && Contains(s[1..], sub))
  }

  lemma {:induction false} ContainsAt<T>(s: seq<T>, sub: seq<T>, i: nat)
    requires i + |sub| <= |s| && s[i..i + |sub|] == sub
    ensures Contains(s, sub)
  {
    if i == 0 {
      assert sub <= s;
    } else {
      assert s[1..][i - 1..i - 1 + |sub|] == s[i..i + |sub|];
      ContainsAt(s[1..], sub, i - 1);
    }
  }

  /** What is concatenated between two sequences occurs in the result. */
  lemma ContainsMiddle<T>(a: seq<T>, m: seq<T>, b: seq<T>)
    ensures Contains(a + m + b, m)
  {
    assert (a + m + b)[|a|..|a| + |m|] == m;
    ContainsAt(a + m + b, m, |a|);
  }

  /** A template `a b c d (w m x) e` starts with `a` and contains `m`. */
  lemma QuotedInTemplate<T>(a: seq<T>, b: seq<T>, c: seq<T>, d: seq<T>, w: seq<T>, m: seq<T>, x: seq<T>, e: seq<T>)
    ensures a <= a + b + c + d + (w + m + x) + e
    ensures Contains(a + b + c + d + (w + m + x) + e, m)
  {
    var t := a + b + c + d + (w + m + x) + e;
    assert t == (a + b + c + d + w) + m + (x + e);
    assert t[..|a|] == a;
    ContainsMiddle(a + b + c + d + w, m, x + e);
  }

  /** A position at which `sub` occurs in `s`. */
  lemma {:induction false} ContainsIndex<T>(s: seq<T>, sub: seq<T>) returns (i: nat)
    requires Contains(s, sub)
    ensures i + |sub| <= |s| && s[i..i + |sub|] == sub
  {
    if sub <= s {
      i := 0;
    } else {
      var j := ContainsIndex(s[1..], sub);
      i := j + 1;
      assert s[i..i + |sub|] == s[1..][j..j + |sub|];
    }
  }

  /** Occurrence is transitive: what occurs in a part of `s` occurs in `s`. */
  lemma ContainsTransitive<T>(s: seq<T>, mid: seq<T>, sub: seq<T>)
    requires Contains(s, mid) && Contains(mid, sub)
    ensures Contains(s, sub)
  {
    var i := ContainsIndex(s, mid);
    var j := ContainsIndex(mid, sub);
    forall k | 0 <= k < |sub| ensures s[i + j + k] == sub[k] {
      assert sub[k] == mid[j..j + |sub|][k] == mid[j + k];
      assert mid[j + k] == s[i..i + |mid|][j + k] == s[i + j + k];
    }
    assert s[i + j..i + j + |sub|] == sub;
    ContainsAt(s, sub, i + j);
  }

  /** The characters `String.prototype.trim` strips: ECMAScript WhiteSpace
      (tab, VT, FF, space, NBSP, BOM and the Zs space separators) and
      LineTerminator (LF, CR, LS, PS). */
  predicate IsJsWhitespace(c: char)
  {
    c == '\t' || c == '\n' || c == '\U{B}' || c == '\U{C}' || c == '\r' || c == ' '
    || c == '\U{A0}' || c == '\U{1680}' || ('\U{2000}' <= c <= '\U{200A}')
    || c == '\U{2028}' || c == '\U{2029}' || c == '\U{202F}' || c == '\U{205F}'
    || c == '\U{3000}' || c == '\U{FEFF}'
  }

  function TrimStart(s: string): (r: string)
    ensures |r| <= |s|
  {
    if |s| > 0 && IsJsWhitespace(s[0]) then TrimStart(s[1..]) else s
  }

  function TrimEnd(s: string): (r: string)
    ensures |r| <= |s|
  {
    if |s| > 0 && IsJsWhitespace(s[|s| - 1]) then TrimEnd(s[..|s| - 1]) else s
  }

  /** `s.trim()`: `s` without its leading and trailing whitespace. */
  function Trim(s: string): (r: string)
    ensures |r| <= |s|
  {
    TrimEnd(TrimStart(s))
  }

  lemma {:induction false} TrimStartDrops(s: string)
    ensures TrimStart(s) == s[|s| - |TrimStart(s)|..]
    ensures TrimStart(s) != [] ==> !IsJsWhitespace(TrimStart(s)[0])
    ensures forall j :: 0 <= j < |s| - |TrimStart(s)| ==> IsJsWhitespace(s[j])
  {
    if |s| > 0 && IsJsWhitespace(s[0]) {
      TrimStartDrops(s[1..]);
      forall j | 1 <= j < |s| - |TrimStart(s)| ensures IsJsWhitespace(s[j]) {
        assert s[j] == s[1..][j - 1];
      }
    }
  }

  lemma {:induction false} TrimEndDrops(s: string)
    ensures TrimEnd(s) == s[..|TrimEnd(s)|]
    ensures TrimEnd(s) != [] ==> !IsJsWhitespace(TrimEnd(s)[|TrimEnd(s)| - 1])
    ensures forall j :: |TrimEnd(s)| <= j < |s| ==> IsJsWhitespace(s[j])
  {
    if |s| > 0 && IsJsWhitespace(s[|s| - 1]) {
      TrimEndDrops(s[..|s| - 1]);
      forall j | |TrimEnd(s)| <= j < |s| - 1 ensures IsJsWhitespace(s[j]) {
        assert s[j] == s[..|s| - 1][j];
      }
    }
  }

  lemma PrefixOfSuffix<T>(s: seq<T>, a: nat, n: nat)
    requires a + n <= |s|
    ensures s[a..][..n] == s[a..a + n]
    ensures forall j :: a + n <= j < |s| ==> s[a..][j - a] == s[j]
  {
  }

  /** The trimmed string is a slice of the original with only whitespace
      cut off on either side, and it neither starts nor ends with whitespace. */
  lemma TrimIsSlice(s: string) returns (a: nat)
    ensures a + |Trim(s)| <= |s| && Trim(s) == s[a..a + |Trim(s)|]
    ensures forall j :: 0 <= j < a ==> IsJsWhitespace(s[j])
    ensures forall j :: a + |Trim(s)| <= j < |s| ==> IsJsWhitespace(s[j])
    ensures Trim(s) != [] ==> !IsJsWhitespace(Trim(s)[0]) && !IsJsWhitespace(Trim(s)[|Trim(s)| - 1])
  {
    TrimStartDrops(s);
    a := |s| - |TrimStart(s)|;
    TrimEndDrops(TrimStart(s));
    PrefixOfSuffix(s, a, |Trim(s)|);
  }

  function Min(a: int, b: int): (r: int)
    ensures r <= a && r <= b && (r == a || r == b)
  {
    if a <= b then a else b
  }
}
