/**
 * The few Python `str` operations the lifecycle code relies on: `strip()`,
 * `lower()`, the `in` substring test and `split(sep)[0]`.
 */
module Text {

  /** Python's `str.isspace()` characters, which `strip()` with no argument removes. */
  predicate IsSpace(c: char) {
    ('\t' <= c <= '\r') || ('\U{1c}' <= c <= '\U{1f}') || c == ' ' || c == '\U{85}' || c == '\U{a0}'
    || c == '\U{1680}' || ('\U{2000}' <= c <= '\U{200a}') || c == '\U{2028}' || c == '\U{2029}'
    || c == '\U{202f}' || c == '\U{205f}' || c == '\U{3000}'
  }

  /** Number of whitespace characters at the front of `s`. */
  function LeadingSpace(s: string): (n: nat)
    ensures n <= |s|
    ensures forall i :: 0 <= i < n ==> IsSpace(s[i])
    ensures n < |s| ==> !IsSpace(s[n])
    decreases |s|
  {
    if s != [] && IsSpace(s[0]) then 1 + LeadingSpace(s[1..]) else 0
  }

  /** Number of whitespace characters at the end of `s`. */
  function TrailingSpace(s: string): (n: nat)
    ensures n <= |s|
    ensures forall i :: |s| - n <= i < |s| ==> IsSpace(s[i])
    ensures n < |s| ==> !IsSpace(s[|s| - n - 1])
    decreases |s|
  {
    if s != [] && IsSpace(s[|s| - 1]) then 1 + TrailingSpace(s[..|s| - 1]) else 0
  }

  /** `s.strip()`: the middle of `s` once whitespace is cut from both ends. */
  function Strip(s: string): (r: string)
    ensures LeadingSpace(s) + |r| <= |s|
    ensures r == s[LeadingSpace(s)..LeadingSpace(s) + |r|]
    ensures forall i :: 0 <= i < LeadingSpace(s) ==> IsSpace(s[i])
    ensures forall i :: LeadingSpace(s) + |r| <= i < |s| ==> IsSpace(s[i])
    ensures r != [] ==> !IsSpace(r[0]) && !IsSpace(r[|r| - 1])
  {
    var t := s[LeadingSpace(s)..];
    t[..|t| - TrailingSpace(t)]
  }

  /** A text that does not start or end with whitespace is its own `strip()`. */
  lemma StripTrimmed(s: string)
    requires s == [] || (!IsSpace(s[0]) && !IsSpace(s[|s| - 1]))
    ensures Strip(s) == s
  {
    assert LeadingSpace(s) == 0;
    assert TrailingSpace(s) == 0;
  }

  /** `strip()` is idempotent. */
  lemma StripIdempotent(s: string)
    ensures Strip(Strip(s)) == Strip(s)
  {
    StripTrimmed(Strip(s));
  }

  /** A text of at most `n` characters whose `strip()` has `n` characters has no whitespace to strip. */
  lemma StripFull(s: string, n: nat)
    requires |s| <= n && |Strip(s)| == n
    ensures Strip(s) == s
  {
  }

  /** Whitespace around a trimmed text is exactly what `strip()` removes. */
  lemma StripPadded(pad: string, body: string, tail: string)
    requires forall i :: 0 <= i < |pad| ==> IsSpace(pad[i])
    requires forall i :: 0 <= i < |tail| ==> IsSpace(tail[i])
    requires body != [] && !IsSpace(body[0]) && !IsSpace(body[|body| - 1])
    ensures Strip(pad + body + tail) == body
  {
    var s := pad + body + tail;
    assert s[|pad|] == body[0];
    assert LeadingSpace(s) == |pad|;
    var t := s[|pad|..];
    assert t == body + tail;
    assert t[|body| - 1] == body[|body| - 1];
    assert TrailingSpace(t) == |tail|;
    assert t[..|t| - |tail|] == body;
  }

  /** `str.lower()` on one character; only the ASCII capitals are mapped. */
  function LowerChar(c: char): char {
    if 'A' <= c <= 'Z' then (c as int + 32) as char else c
  }

  /** `s.lower()`. */
  function Lower(s: string): (r: string)
    ensures |r| == |s|
    ensures forall i :: 0 <= i < |s| ==> r[i] == LowerChar(s[i])
    decreases |s|
  {
    if s == [] then [] else [LowerChar(s[0])] + Lower(s[1..])
  }

  /** A text without capital letters is its own lower-case form. */
  lemma LowerKeeps(s: string)
    requires forall i :: 0 <= i < |s| ==> !('A' <= s[i] <= 'Z')
    ensures Lower(s) == s
  {
  }

  /** `sub in s`: `sub` occurs somewhere in `s` (the empty text occurs everywhere). */
  predicate Contains(s: string, sub: string)
    decreases |s|
  {
    sub <= s || (s != [] && Contains(s[1..], sub))
  }

  /** A text ending in `sub` contains it. */
  lemma {:induction false} ContainsAtEnd(pre: string, sub: string)
    ensures Contains(pre + sub, sub)
    decreases |pre|
  {
    if pre != [] {
      assert (pre + sub)[1..] == pre[1..] + sub;
      ContainsAtEnd(pre[1..], sub);
    }
  }

  /** What occurs in a prefix occurs in the whole text. */
  lemma {:induction false} ContainsInPrefix(a: string, b: string, sub: string)
    requires a <= b && Contains(a, sub)
    ensures Contains(b, sub)
    decreases |a|
  {
    if !(sub <= a) {
      assert a[1..] <= b[1..];
      ContainsInPrefix(a[1..], b[1..], sub);
    }
  }

  /** An occurrence in a prefix is an occurrence, at the same place, in the whole text. */
  lemma OccurrenceInPrefix(a: string, b: string, k: nat, sub: string)
    ensures a <= b && k <= |a| && sub <= a[k..] ==> sub <= b[k..]
  {
    if a <= b && k <= |a| && sub <= a[k..] {
      assert b[k..][..|sub|] == a[k..][..|sub|];
    }
  }

  /** What does not occur in a text does not occur in its prefixes. */
  lemma AbsentInPrefix(a: string, b: string, sub: string)
    requires a <= b && !Contains(b, sub)
    ensures !Contains(a, sub)
  {
    if Contains(a, sub) {
      ContainsInPrefix(a, b, sub);
    }
  }

  /** A text without the first character of `sub` does not contain `sub`. */
  lemma {:induction false} AbsentFirstChar(s: string, sub: string)
    requires sub != [] && forall i :: 0 <= i < |s| ==> s[i] != sub[0]
    ensures !Contains(s, sub)
    decreases |s|
  {
    assert !(sub <= s) by {
      if s != [] {
        assert s[0] != sub[0];
      }
    }
    if s != [] {
      forall i | 0 <= i < |s[1..]|
        ensures s[1..][i] != sub[0]
      {
        assert s[1..][i] == s[i + 1];
      }
      AbsentFirstChar(s[1..], sub);
    }
  }

  /** Lowering a text keeps every occurrence of a fragment, lowered alike. */
  lemma {:induction false} ContainsLower(s: string, sub: string)
    requires Contains(s, sub)
    ensures Contains(Lower(s), Lower(sub))
    decreases |s|
  {
    if sub <= s {
      assert Lower(sub) <= Lower(s);
    } else {
      ContainsLower(s[1..], sub);
      assert Lower(s)[1..] == Lower(s[1..]);
    }
  }

  /** `s.split(sep)[0]`: the part of `s` before the first occurrence of `sep`, or all of `s`. */
  function Before(s: string, sep: string): (r: string)
    requires sep != []
    ensures r <= s
    ensures !Contains(r, sep)
    ensures r == s <==> !Contains(s, sep)
    ensures r != s ==> sep <= s[|r|..]
    decreases |s|
  {
    if sep <= s then []
    else if s == [] then []
    else
      var rest := Before(s[1..], sep);
      assert ([s[0]] + rest)[1..] == rest;
      assert s[1 + |rest|..] == s[1..][|rest|..];
      [s[0]] + rest
  }

  /** No occurrence of `sep` starts inside `s.split(sep)[0]`: the cut is at the first occurrence. */
  lemma {:induction false} BeforeFirst(s: string, sep: string)
    requires sep != []
    ensures forall j :: 0 <= j < |Before(s, sep)| ==> !(sep <= s[j..])
    decreases |s|
  {
    if !(sep <= s) && s != [] {
      BeforeFirst(s[1..], sep);
      forall j | 0 <= j < |Before(s, sep)|
        ensures !(sep <= s[j..])
      {
        if j > 0 {
          assert s[j..] == s[1..][j - 1..];
        }
      }
    }
  }

  /** When `sep` does not occur before `m`, `s.split(sep)[0]` keeps the first `m` characters. */
  lemma BeforeKeeps(s: string, sep: string, m: nat)
    requires sep != [] && m <= |s|
    requires forall j :: 0 <= j < m ==> !(sep <= s[j..])
    ensures m <= |Before(s, sep)| && Before(s, sep)[..m] == s[..m]
  {
  }

  /** `s.split(sep)[0]` is `s[..k]` when `sep` occurs at `k` and the first character of `sep` does not occur before `k`. */
  lemma BeforeAt(s: string, sep: string, k: nat)
    requires sep != [] && k <= |s| && sep <= s[k..]
    requires forall j :: 0 <= j < k ==> s[j] != sep[0]
    ensures Before(s, sep) == s[..k]
  {
    forall j | 0 <= j < k
      ensures !(sep <= s[j..])
    {
      assert s[j..][0] == s[j];
    }
    BeforeKeeps(s, sep, k);
    BeforeFirst(s, sep);
  }
}
