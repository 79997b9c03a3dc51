/**
 * The few Python `str` operations the reply pipeline relies on:
 * `strip()`, `replace()`, `"sep".join()`, `isdigit()` and `str(int)`.
 */
module Text {

  /** Characters for which Python's `str.isspace()` holds. */
  predicate IsSpace(c: char) {
    c == ' ' || ('\t' <= c <= '\r') || ('\U{1C}' <= c <= '\U{1F}')
    || c == '\U{85}' || c == '\U{A0}' || c == '\U{1680}'
    || ('\U{2000}' <= c <= '\U{200A}') || c == '\U{2028}' || c == '\U{2029}'
    || c == '\U{202F}' || c == '\U{205F}' || c == '\U{3000}'
  }

  /** ASCII decimal digits (the part of `str.isdigit()` this model covers). */
  predicate IsDigit(c: char) {
    '0' <= c <= '9'
  }

  predicate AllSpace(s: string) {
    forall i :: 0 <= i < |s| ==> IsSpace(s[i])
  }

  predicate HasDigit(s: string) {
    exists i :: 0 <= i < |s| && IsDigit(s[i])
  }

  /** `s.lstrip()`: drops the leading run of whitespace. */
  function TrimLeft(s: string): string
    decreases |s|
  {
    if |s| > 0 && IsSpace(s[0]) then TrimLeft(s[1..]) else s
  }

  /** `s.rstrip()`: drops the trailing run of whitespace. */
  function TrimRight(s: string): string
    decreases |s|
  {
    if |s| > 0 && IsSpace(s[|s| - 1]) then TrimRight(s[..|s| - 1]) else s
  }

  /** `s.strip()`. */
  function Strip(s: string): string {
    TrimRight(TrimLeft(s))
  }

  /** A string Python treats as blank: `not s.strip()`. */
  predicate Blank(s: string) {
    |Strip(s)| == 0
  }

  /** `lstrip()` keeps a suffix, drops only whitespace, and stops at a non-space. */
  lemma {:induction false} TrimLeftShape(s: string)
    ensures var r := TrimLeft(s);
      && |r| <= |s| && r == s[|s| - |r|..]
      && AllSpace(s[..|s| - |r|])
      && (|r| > 0 ==> !IsSpace(r[0]))
    decreases |s|
  {
    if |s| > 0 && IsSpace(s[0]) {
      TrimLeftShape(s[1..]);
      var r := TrimLeft(s);
      var k := |s| - |r|;
      assert r == s[1..][|s| - 1 - |r|..] == s[k..];
      forall i | 0 <= i < k ensures IsSpace(s[..k][i]) {
        if i > 0 {
          assert s[..k][i] == s[1..][..k - 1][i - 1];
        }
      }
    }
  }

  /** `rstrip()` keeps a prefix, drops only whitespace, and stops at a non-space. */
  lemma {:induction false} TrimRightShape(s: string)
    ensures var r := TrimRight(s);
      && |r| <= |s| && r == s[..|r|]
      && AllSpace(s[|r|..])
      && (|r| > 0 ==> !IsSpace(r[|r| - 1]))
    decreases |s|
  {
    if |s| > 0 && IsSpace(s[|s| - 1]) {
      var t := s[..|s| - 1];
      TrimRightShape(t);
      var r := TrimRight(s);
      assert r == t[..|r|] == s[..|r|];
      forall i | |r| <= i < |s| ensures IsSpace(s[i]) {
        if i < |s| - 1 {
          assert t[|r|..][i - |r|] == s[i];
        }
      }
    }
  }

  lemma BlankIffAllSpace(s: string)
    ensures Blank(s) <==> AllSpace(s)
  {
    if Blank(s) {
      var l := TrimLeft(s);
      TrimLeftShape(s);
      TrimRightShape(l);
      assert l[0..] == l;
      assert |l| == 0;
      forall i | 0 <= i < |s|
        ensures IsSpace(s[i])
      {
        assert s[..|s|][i] == s[i];
      }
    }
    if AllSpace(s) {
      TrimLeftAllSpace(s);
    }
  }

  /** The stripped string is the original minus its leading and trailing whitespace. */
  lemma StripIsCore(s: string)
    ensures exists i, j :: 0 <= i <= j <= |s| && Strip(s) == s[i..j]
                           && AllSpace(s[..i]) && AllSpace(s[j..])
  {
    var l := TrimLeft(s);
    var r := TrimRight(l);
    TrimLeftShape(s);
    TrimRightShape(l);
    var i := |s| - |l|;
    var j := i + |r|;
    assert l == s[i..];
    assert r == l[..|r|] == s[i..j];
    assert l[|r|..] == s[j..];
  }

  lemma {:induction false} TrimLeftPadded(lead: string, s: string)
    requires AllSpace(lead)
    ensures TrimLeft(lead + s) == TrimLeft(s)
    decreases |lead|
  {
    if |lead| > 0 {
      var t := lead + s;
      assert t[0] == lead[0] && IsSpace(t[0]);
      assert t[1..] == lead[1..] + s;
      assert AllSpace(lead[1..]) by {
        forall i | 0 <= i < |lead| - 1 ensures IsSpace(lead[1..][i]) {
          assert lead[1..][i] == lead[i + 1];
        }
      }
      TrimLeftPadded(lead[1..], s);
      assert TrimLeft(t) == TrimLeft(t[1..]);
    } else {
      assert lead + s == s;
    }
  }

  lemma {:induction false} TrimRightPadded(s: string, trail: string)
    requires AllSpace(trail)
    ensures TrimRight(s + trail) == TrimRight(s)
    decreases |trail|
  {
    if |trail| > 0 {
      var u := s + trail;
      var t := trail[..|trail| - 1];
      assert u[|u| - 1] == trail[|trail| - 1] && IsSpace(u[|u| - 1]);
      assert u[..|u| - 1] == s + t;
      assert AllSpace(t) by {
        forall i | 0 <= i < |t| ensures IsSpace(t[i]) {
          assert t[i] == trail[i];
        }
      }
      TrimRightPadded(s, t);
      assert TrimRight(u) == TrimRight(u[..|u| - 1]);
    } else {
      assert s + trail == s;
    }
  }

  /** Whitespace around a string never changes what `strip()` gives. */
  lemma StripPadded(lead: string, s: string, trail: string)
    requires AllSpace(lead) && AllSpace(trail)
    ensures Strip(lead + s + trail) == Strip(s)
  {
    assert lead + s + trail == lead + (s + trail);
    TrimLeftPadded(lead, s + trail);
    var l := TrimLeft(s);
    if |l| > 0 {
      TrimLeftKeepsTail(s, trail);
      TrimRightPadded(l, trail);
    } else {
      TrimLeftShape(s);
      assert s[..|s|] == s;
      assert AllSpace(s + trail) by {
        forall i | 0 <= i < |s + trail| ensures IsSpace((s + trail)[i]) {
          if i < |s| {
            assert (s + trail)[i] == s[i];
          } else {
            assert (s + trail)[i] == trail[i - |s|];
          }
        }
      }
      TrimLeftAllSpace(s + trail);
    }
  }

  lemma {:induction false} TrimLeftAllSpace(s: string)
    requires AllSpace(s)
    ensures TrimLeft(s) == []
    decreases |s|
  {
    if |s| > 0 {
      assert AllSpace(s[1..]) by {
        forall i | 0 <= i < |s| - 1 ensures IsSpace(s[1..][i]) {
          assert s[1..][i] == s[i + 1];
        }
      }
      TrimLeftAllSpace(s[1..]);
    }
  }

  lemma {:induction false} TrimLeftKeepsTail(s: string, tail: string)
    requires |TrimLeft(s)| > 0
    ensures TrimLeft(s + tail) == TrimLeft(s) + tail
    decreases |s|
  {
    if IsSpace(s[0]) {
      assert (s + tail)[1..] == s[1..] + tail;
      TrimLeftKeepsTail(s[1..], tail);
    }
  }

  /** `strip()` is idempotent. */
  lemma StripIdempotent(s: string)
    ensures Strip(Strip(s)) == Strip(s)
  {
    var l := TrimLeft(s);
    var c := Strip(s);
    if |c| > 0 {
      TrimLeftShape(s);
      TrimRightShape(l);
      assert c == l[..|c|];
      StripUnpadded(c);
    }
  }

  /** A string that neither starts nor ends with whitespace is its own `strip()`. */
  lemma StripUnpadded(s: string)
    requires |s| > 0 && !IsSpace(s[0]) && !IsSpace(s[|s| - 1])
    ensures Strip(s) == s
  {
  }

  // ----- str.replace -----

  /** `pat` occurs in `s` starting at index `i`. */
  predicate MatchAt(s: string, pat: string, i: int) {
    0 <= i && i + |pat| <= |s| && s[i..i + |pat|] == pat
  }

  /** No occurrence of `pat` in `s` starts before index `n`. */
  predicate NoMatchBefore(s: string, pat: string, n: int) {
    forall i :: 0 <= i < n ==> !MatchAt(s, pat, i)
  }

  /** `s.replace(pat, rep)`: a left-to-right scan replacing non-overlapping occurrences. */
  function ReplaceAll(s: string, pat: string, rep: string): string
    requires |pat| > 0
    decreases |s|
  {
    if |s| < |pat| then s
    else if s[..|pat|] == pat then rep + ReplaceAll(s[|pat|..], pat, rep)
    else [s[0]] + ReplaceAll(s[1..], pat, rep)
  }

  /** The number of occurrences `ReplaceAll` replaces (`s.count(pat)`). */
  function Count(s: string, pat: string): nat
    requires |pat| > 0
    decreases |s|
  {
    if |s| < |pat| then 0
    else if s[..|pat|] == pat then 1 + Count(s[|pat|..], pat)
    else Count(s[1..], pat)
  }

  /** A prefix that holds no occurrence is copied through unchanged. */
  lemma {:induction false} ReplaceSkipsPrefix(a: string, b: string, pat: string, rep: string)
    requires |pat| > 0
    requires NoMatchBefore(a + b, pat, |a|)
    ensures ReplaceAll(a + b, pat, rep) == a + ReplaceAll(b, pat, rep)
    decreases |a|
  {
    if |a| > 0 {
      var s := a + b;
      if |s| < |pat| {
        assert ReplaceAll(b, pat, rep) == b;
      } else {
        assert !MatchAt(s, pat, 0);
        assert s[..|pat|] != pat;
        assert ReplaceAll(s, pat, rep) == [s[0]] + ReplaceAll(s[1..], pat, rep);
        var a' := a[1..];
        assert s[1..] == a' + b;
        forall i | 0 <= i < |a'|
          ensures !MatchAt(a' + b, pat, i)
        {
          assert !MatchAt(s, pat, i + 1);
          if i + |pat| <= |a' + b| {
            assert (a' + b)[i..i + |pat|] == s[i + 1..i + 1 + |pat|];
          }
        }
        ReplaceSkipsPrefix(a', b, pat, rep);
        assert a == [s[0]] + a';
        assert [s[0]] + (a' + ReplaceAll(b, pat, rep)) == a + ReplaceAll(b, pat, rep);
      }
    } else {
      assert a + b == b;
      assert a + ReplaceAll(b, pat, rep) == ReplaceAll(b, pat, rep);
    }
  }

  /** Text with no occurrence of `pat` is returned unchanged, whatever the replacement. */
  lemma ReplaceNoMatch(s: string, pat: string, rep: string)
    requires |pat| > 0
    requires NoMatchBefore(s, pat, |s|)
    ensures ReplaceAll(s, pat, rep) == s
  {
    assert s + [] == s;
    ReplaceSkipsPrefix(s, [], pat, rep);
  }

  /** An occurrence after an occurrence-free prefix becomes the replacement. */
  lemma ReplaceFirstMatch(a: string, b: string, pat: string, rep: string)
    requires |pat| > 0
    requires NoMatchBefore(a + pat + b, pat, |a|)
    ensures ReplaceAll(a + pat + b, pat, rep) == a + rep + ReplaceAll(b, pat, rep)
  {
    assert a + pat + b == a + (pat + b);
    ReplaceSkipsPrefix(a, pat + b, pat, rep);
    assert (pat + b)[..|pat|] == pat;
    assert (pat + b)[|pat|..] == b;
  }

  /** Each replaced occurrence trades `|pat|` characters for `|rep|`. */
  lemma {:induction false} ReplaceLength(s: string, pat: string, rep: string)
    requires |pat| > 0
    ensures |ReplaceAll(s, pat, rep)| + Count(s, pat) * |pat| == |s| + Count(s, pat) * |rep|
    decreases |s|
  {
    if |s| >= |pat| {
      if s[..|pat|] == pat {
        var tail := s[|pat|..];
        ReplaceLength(tail, pat, rep);
        var k := Count(tail, pat);
        assert Count(s, pat) == 1 + k;
        assert |ReplaceAll(s, pat, rep)| == |rep| + |ReplaceAll(tail, pat, rep)|;
        assert |s| == |pat| + |tail|;
        OneMore(k, |pat|);
        OneMore(k, |rep|);
      } else {
        ReplaceLength(s[1..], pat, rep);
        assert Count(s, pat) == Count(s[1..], pat);
        assert |ReplaceAll(s, pat, rep)| == 1 + |ReplaceAll(s[1..], pat, rep)|;
      }
    }
  }

  /** One more occurrence adds one more multiple. */
  lemma OneMore(k: int, n: int)
    ensures (1 + k) * n == n + k * n
  {
  }

  /** Replacing a token by itself changes nothing. */
  lemma {:induction false} ReplaceBySelf(s: string, pat: string)
    requires |pat| > 0
    ensures ReplaceAll(s, pat, pat) == s
    decreases |s|
  {
    if |s| >= |pat| {
      if s[..|pat|] == pat {
        ReplaceBySelf(s[|pat|..], pat);
        assert s == s[..|pat|] + s[|pat|..];
      } else {
        ReplaceBySelf(s[1..], pat);
        assert s == [s[0]] + s[1..];
      }
    }
  }

  // ----- "sep".join -----

  /** `sep.join(parts)`. */
  function Join(parts: seq<string>, sep: string): string
    decreases |parts|
  {
    if |parts| == 0 then ""
    else if |parts| == 1 then parts[0]
    else parts[0] + sep + Join(parts[1..], sep)
  }

  /** The joined text starts with the first part. */
  lemma JoinStartsWithFirst(parts: seq<string>, sep: string)
    requires |parts| > 0
    ensures |parts[0]| <= |Join(parts, sep)|
    ensures Join(parts, sep)[..|parts[0]|] == parts[0]
  {
    if |parts| > 1 {
      assert Join(parts, sep) == parts[0] + (sep + Join(parts[1..], sep));
    }
  }

  lemma JoinThree(a: string, b: string, c: string, sep: string)
    ensures Join([a, b, c], sep) == a + sep + b + sep + c
  {
    assert [a, b, c][1..] == [b, c];
    assert [b, c][1..] == [c];
    assert Join([c], sep) == c;
    assert Join([b, c], sep) == b + sep + c;
    assert Join([a, b, c], sep) == a + sep + (b + sep + c);
  }

  // ----- str(int) -----

  function DigitChar(d: nat): (c: char)
    requires d < 10
    ensures IsDigit(c)
  {
    "0123456789"[d]
  }

  function DigitValue(c: char): nat
    requires IsDigit(c)
  {
    c as int - '0' as int
  }

  /** Decimal digits of a natural number, no leading zeros. */
  function NatToString(n: nat): (s: string)
    ensures |s| > 0 && forall i :: 0 <= i < |s| ==> IsDigit(s[i])
    decreases n
  {
    if n < 10 then [DigitChar(n)] else NatToString(n / 10) + [DigitChar(n % 10)]
  }

  /** Reads back a string of decimal digits. */
  function ParseDigits(s: string): nat
    requires forall i :: 0 <= i < |s| ==> IsDigit(s[i])
    decreases |s|
  {
    if |s| == 0 then 0 else ParseDigits(s[..|s| - 1]) * 10 + DigitValue(s[|s| - 1])
  }

  /** `str(n)` for an `int`: a minus sign for negatives, then the digits. */
  function IntToString(n: int): string {
    if n < 0 then "-" + NatToString(-n) else NatToString(n)
  }

  lemma {:induction false} NatToStringRoundTrip(n: nat)
    ensures ParseDigits(NatToString(n)) == n
    decreases n
  {
    if n >= 10 {
      NatToStringRoundTrip(n / 10);
      var s := NatToString(n);
      assert s[..|s| - 1] == NatToString(n / 10);
    }
  }
}
