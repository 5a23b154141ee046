/**
 * What a `wildcard` filter selects: the search engine's pattern language
 * over one indexed term, where `*` matches any run of characters, `?` any
 * single character and a backslash makes the next character literal.
 */
module Patterns {

  predicate IsSpecial(c: char) {
    c == '*' || c == '?' || c == '\\'
  }

  /** A pattern without special characters: it stands only for itself. */
  predicate IsLiteral(s: string) {
    forall i :: 0 <= i < |s| ==> !IsSpecial(s[i])
  }

  predicate Match(p: string, s: string)
    decreases |p| + |s|
  {
    if p == [] then s == []
    else if p[0] == '*' then Match(p[1..], s) || (s != [] && Match(p, s[1..]))
    else if p[0] == '?' then s != [] && Match(p[1..], s[1..])
    else if p[0] == '\\' && |p| >= 2 then s != [] && s[0] == p[1] && Match(p[2..], s[1..])
    else s != [] && s[0] == p[0] && Match(p[1..], s[1..])
  }

  /** `prefix` is an initial segment of `s`. */
  predicate StartsWith(s: string, prefix: string) {
    |prefix| <= |s| && s[..|prefix|] == prefix
  }

  /** `suffix` is a final segment of `s`. */
  predicate EndsWith(s: string, suffix: string) {
    |suffix| <= |s| && s[|s| - |suffix|..] == suffix
  }

  /** A literal pattern followed by the rest matches a term that starts with the literal and whose remainder the rest matches. */
  lemma {:induction false} LiteralThen(l: string, q: string, s: string)
    requires IsLiteral(l)
    ensures Match(l + q, s) <==> StartsWith(s, l) && Match(q, s[|l|..])
    decreases |l|
  {
    if l != [] {
      var p := l + q;
      assert p[0] == l[0] && p[1..] == l[1..] + q;
      assert IsLiteral(l[1..]) by {
        forall i | 0 <= i < |l[1..]| ensures !IsSpecial(l[1..][i]) {
          assert l[1..][i] == l[i + 1];
        }
      }
      assert !IsSpecial(l[0]);
      if s != [] {
        LiteralThen(l[1..], q, s[1..]);
        if |l| <= |s| {
          assert s[1..][|l| - 1..] == s[|l|..];
        }
        if StartsWith(s, l) {
          assert s[1..][..|l| - 1] == s[..|l|][1..];
        }
        if s[0] == l[0] && StartsWith(s[1..], l[1..]) {
          assert s[..|l|] == [s[0]] + s[1..][..|l| - 1];
        }
      }
    } else {
      assert l + q == q;
    }
  }

  /** A literal pattern matches exactly itself. */
  lemma LiteralMatch(l: string, s: string)
    requires IsLiteral(l)
    ensures Match(l, s) <==> s == l
  {
    LiteralThen(l, [], s);
    assert l + [] == l;
  }

  /** `*` followed by a literal matches exactly the terms ending with that literal. */
  lemma {:induction false} StarThenLiteral(t: string, s: string)
    requires IsLiteral(t)
    ensures Match("*" + t, s) <==> EndsWith(s, t)
    decreases |s|
  {
    var p := "*" + t;
    assert p[0] == '*' && p[1..] == t;
    LiteralMatch(t, s);
    if s != [] {
      StarThenLiteral(t, s[1..]);
      if |s| > |t| {
        assert s[1..][|s| - 1 - |t|..] == s[|s| - |t|..];
      }
    }
  }
}
