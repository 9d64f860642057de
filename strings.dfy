/**
 * String matching used by the gates and the search endpoints:
 * JavaScript's `String.prototype.includes` and SQL's `LIKE` pattern match.
 */
module Strings {
  /** The specification of substring occurrence: `sub` starts at some position of `s`. */
  ghost predicate IsSubstring(sub: string, s: string)
  {
    exists k :: 0 <= k <= |s| && sub <= s[k..]
  }

  /** `s.includes(sub)` for a string `s`: try every starting position from the left. */
  function Contains(s: string, sub: string): bool
    decreases |s|
  {
    sub <= s || (s != [] && Contains(s[1..], sub))
  }

  /** `includes` on strings is exactly substring occurrence. */
  lemma {:induction false} ContainsIsSubstring(s: string, sub: string)
    ensures Contains(s, sub) <==> IsSubstring(sub, s)
  {
    if sub <= s {
      assert s[0..] == s;
    } else if s == [] {
      assert forall k :: 0 <= k <= |s| ==> s[k..] == s;
    } else {
      assert s[0..] == s;
      ContainsIsSubstring(s[1..], sub);
      if IsSubstring(sub, s[1..]) {
        var k :| 0 <= k <= |s[1..]| && sub <= s[1..][k..];
        assert s[1..][k..] == s[k + 1..];
      }
      if IsSubstring(sub, s) {
        var k :| 0 <= k <= |s| && sub <= s[k..];
        assert k > 0;
        assert s[k..] == s[1..][k - 1..];
      }
    }
  }

  /** A string holding a character that `s` lacks does not occur in `s`. */
  lemma ForeignCharacterExcludes(s: string, sub: string, i: nat)
    requires i < |sub| && sub[i] !in s
    ensures !Contains(s, sub)
  {
    ContainsIsSubstring(s, sub);
    forall k | 0 <= k <= |s|
      ensures !(sub <= s[k..])
    {
      if k + i < |s| {
        assert s[k..][i] == s[k + i] && s[k + i] in s;
      }
    }
  }

  /**
   * SQL `LIKE` with its two wildcards: `%` matches any run of characters and `_` matches
   * exactly one. Every other character matches itself (escapes and collation are not modelled).
   */
  function Like(pattern: string, s: string): bool
    decreases |pattern| + |s|
  {
    if pattern == [] then s == []
    else if pattern[0] == '%' then Like(pattern[1..], s) || (s != [] && Like(pattern, s[1..]))
    else s != [] && (pattern[0] == '_' || pattern[0] == s[0]) && Like(pattern[1..], s[1..])
  }

  /** Text with no character that `LIKE` would treat specially. */
  predicate Plain(q: string)
  {
    forall i :: 0 <= i < |q| ==> q[i] != '%' && q[i] != '_' && q[i] != '\\'
  }

  /** A lone `%` matches every string. */
  lemma {:induction false} PercentMatchesAll(s: string)
    ensures Like("%", s)
  {
    if s != [] {
      PercentMatchesAll(s[1..]);
    }
  }

  /** Plain text followed by `%` matches exactly the strings that start with that text. */
  lemma {:induction false} LikePrefix(q: string, s: string)
    requires Plain(q)
    ensures Like(q + "%", s) <==> q <= s
  {
    if q == [] {
      assert q + "%" == "%";
      PercentMatchesAll(s);
    } else {
      assert (q + "%")[0] == q[0];
      assert (q + "%")[1..] == q[1..] + "%";
      if s != [] {
        LikePrefix(q[1..], s[1..]);
      }
    }
  }

  /** A leading `%` lets the rest of the pattern match any suffix. */
  lemma {:induction false} LikeLeadingPercent(rest: string, s: string)
    ensures Like("%" + rest, s) <==> exists k :: 0 <= k <= |s| && Like(rest, s[k..])
  {
    assert ("%" + rest)[0] == '%';
    assert ("%" + rest)[1..] == rest;
    assert s[0..] == s;
    if s == [] {
      assert forall k :: 0 <= k <= |s| ==> s[k..] == s;
    } else {
      LikeLeadingPercent(rest, s[1..]);
      if exists k :: 0 <= k <= |s[1..]| && Like(rest, s[1..][k..]) {
        var k :| 0 <= k <= |s[1..]| && Like(rest, s[1..][k..]);
        assert s[1..][k..] == s[k + 1..];
      }
      if exists k :: 0 <= k <= |s| && Like(rest, s[k..]) {
        var k :| 0 <= k <= |s| && Like(rest, s[k..]);
        if k == 0 {
          assert s[0..] == s;
        } else {
          assert s[k..] == s[1..][k - 1..];
        }
      }
    }
  }

  /** `LIKE '%q%'` for plain text `q` is substring search. */
  lemma SurroundedPatternIsSubstring(q: string, s: string)
    requires Plain(q)
    ensures Like("%" + q + "%", s) <==> IsSubstring(q, s)
  {
    assert "%" + q + "%" == "%" + (q + "%");
    LikeLeadingPercent(q + "%", s);
    forall k | 0 <= k <= |s|
      ensures Like(q + "%", s[k..]) <==> q <= s[k..]
    {
      LikePrefix(q, s[k..]);
    }
  }

  /** The pattern built from an empty query, `'%%'`, matches every string. */
  lemma EmptyPatternMatchesAll(s: string)
    ensures Like("%%", s)
  {
    assert Plain("");
    SurroundedPatternIsSubstring("", s);
    assert "%" + "" + "%" == "%%";
    assert "" <= s[0..];
  }
}
