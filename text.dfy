/** The string operations the source takes from JavaScript: `toLowerCase`,
    `includes`, `endsWith` and the "text after the last '.'" that
    `split('.').pop()` yields. Strings are sequences of characters; case
    folding is that of the ASCII letters. */
module Text {

  function LowerChar(c: char): (d: char)
    ensures 'A' <= c <= 'Z' ==> 'a' <= d <= 'z' && d as int - 'a' as int == c as int - 'A' as int
    ensures !('A' <= c <= 'Z') ==> d == c
  {
    if 'A' <= c <= 'Z' then (c as int - 'A' as int + 'a' as int) as char else c
  }

  /** `s.toLowerCase()`. */
  function Lower(s: string): (r: string)
    ensures |r| == |s|
    ensures forall i :: 0 <= i < |s| ==> r[i] == LowerChar(s[i])
  {
    if s == [] then [] else [LowerChar(s[0])] + Lower(s[1..])
  }

  lemma LowerConcat(a: string, b: string)
    ensures Lower(a + b) == Lower(a) + Lower(b)
  {
    assert Lower(a + b) == Lower(a) + Lower(b) by {
      forall i | 0 <= i < |a + b| ensures Lower(a + b)[i] == (Lower(a) + Lower(b))[i] {
        if i < |a| { assert (a + b)[i] == a[i]; } else { assert (a + b)[i] == b[i - |a|]; }
      }
    }
  }

  lemma LowerIdempotent(s: string)
    ensures Lower(Lower(s)) == Lower(s)
  {
  }

  /** `t` is a prefix of `s`. */
  predicate IsPrefix(t: string, s: string)
  {
    |t| <= |s| && s[..|t|] == t
  }

  /** `s.includes(t)`: `t` occurs in `s` at some position. */
  predicate Contains(s: string, t: string)
  {
    IsPrefix(t, s) || (s != [] && Contains(s[1..], t))
  }

  /** `t` occurs in `s` starting at position `i`. */
  predicate OccursAt(s: string, t: string, i: int)
  {
    0 <= i && i + |t| <= |s| && s[i..i + |t|] == t
  }

  /** `Contains` finds exactly the occurrences that a search over all start
      positions finds. */
  lemma {:induction false} ContainsIffOccurs(s: string, t: string)
    ensures Contains(s, t) <==> exists i :: OccursAt(s, t, i)
  {
    if IsPrefix(t, s) {
      assert OccursAt(s, t, 0);
    } else if s == [] {
    } else {
      ContainsIffOccurs(s[1..], t);
      if Contains(s[1..], t) {
        var i :| OccursAt(s[1..], t, i);
        assert s[1..][i..i + |t|] == s[i + 1..i + 1 + |t|];
        assert OccursAt(s, t, i + 1);
      }
      if exists i :: OccursAt(s, t, i) {
        var i :| OccursAt(s, t, i);
        assert i != 0;
        assert s[1..][i - 1..i - 1 + |t|] == s[i..i + |t|];
        assert OccursAt(s[1..], t, i - 1);
      }
    }
  }

  /** Every string includes the empty string. */
  lemma ContainsEmpty(s: string)
    ensures Contains(s, "")
  {
  }

  /** `s.endsWith(c)` for a one-character suffix. */
  predicate EndsWith(s: string, c: char)
  {
    |s| > 0 && s[|s| - 1] == c
  }

  /** `s.endsWith(t)`. */
  predicate HasSuffix(s: string, t: string)
  {
    |t| <= |s| && s[|s| - |t|..] == t
  }

  /** A concatenation starts with its first part and ends with every suffix
      of its second. */
  lemma ConcatEnds(a: string, b: string, t: string)
    requires HasSuffix(b, t)
    ensures IsPrefix(a, a + b) && HasSuffix(a + b, t)
  {
    assert (a + b)[..|a|] == a;
    assert (a + b)[|a + b| - |t|..] == b[|b| - |t|..];
  }

  /** A suffix that differs from the end of `s` at one position is not a
      suffix of `s`. */
  lemma NotSuffixAt(s: string, t: string, i: nat)
    requires |t| <= |s| && i < |t| && s[|s| - |t| + i] != t[i]
    ensures !HasSuffix(s, t)
  {
    assert s[|s| - |t|..][i] != t[i];
  }

  /** The last element of `s.split('.')`: the text after the last '.', or all
      of `s` when it holds no '.'. */
  function AfterLastDot(s: string): (r: string)
    ensures |r| <= |s| && s[|s| - |r|..] == r
    ensures '.' !in r
    ensures |r| < |s| ==> s[|s| - |r| - 1] == '.'
  {
    if s == [] then []
    else if s[|s| - 1] == '.' then []
    else AfterLastDot(s[..|s| - 1]) + [s[|s| - 1]]
  }

  /** The text after the last '.' of `b + "." + e` is `e` when `e` holds no
      '.': whatever comes before the last dot does not matter. */
  lemma {:induction false} AfterLastDotOfDotted(b: string, e: string)
    requires '.' !in e
    ensures AfterLastDot(b + "." + e) == e
  {
    var s := b + "." + e;
    if e == [] {
      assert s[|s| - 1] == '.';
    } else {
      assert s[|s| - 1] == e[|e| - 1];
      assert s[..|s| - 1] == b + "." + e[..|e| - 1];
      AfterLastDotOfDotted(b, e[..|e| - 1]);
      assert e[..|e| - 1] + [e[|e| - 1]] == e;
    }
  }

  lemma LowerPrefix(s: string, k: nat)
    requires k <= |s|
    ensures Lower(s[..k]) == Lower(s)[..k]
  {
  }

  /** Lowercasing does not move dots, so it commutes with taking the text
      after the last one. */
  lemma {:induction false} AfterLastDotLower(s: string)
    ensures AfterLastDot(Lower(s)) == Lower(AfterLastDot(s))
  {
    if s != [] {
      var n := |s|;
      var l := Lower(s);
      var last := s[n - 1];
      LowerPrefix(s, n - 1);
      AfterLastDotLower(s[..n - 1]);
      if last == '.' {
        assert l[n - 1] == '.';
      } else {
        assert l[n - 1] == LowerChar(last) != '.';
        LowerConcat(AfterLastDot(s[..n - 1]), [last]);
        assert Lower([last]) == [LowerChar(last)];
      }
    }
  }

  /** The decimal digits of `n`, as JavaScript renders a non-negative integer
      in a template string. */
  function NatToString(n: nat): (r: string)
    ensures |r| >= 1
    ensures forall i :: 0 <= i < |r| ==> '0' <= r[i] <= '9'
  {
    if n < 10 then [Digit(n)] else NatToString(n / 10) + [Digit(n % 10)]
  }

  function Digit(d: nat): (c: char)
    requires d < 10
    ensures '0' <= c <= '9'
  {
    ('0' as int + d) as char
  }
}
