/**
 * The string operations the consumers use: matching a routing key against a
 * regular expression that is a plain literal (Ruby `key =~ /plate\.create/`),
 * and the ASCII case mapping behind Ruby's `capitalize`, `upcase` and `sub` as
 * json_decoder_for uses them.
 */
module Text {

  predicate StartsWith(s: string, prefix: string) {
    |prefix| <= |s| && s[..|prefix|] == prefix
  }

  /** `p` occurs in `s` starting at index `i`. */
  predicate OccursAt(s: string, p: string, i: int) {
    0 <= i <= |s| - |p| && s[i..i + |p|] == p
  }

  /** `s =~ /p/` for a pattern without metacharacters: `p` occurs somewhere in `s`. */
  predicate Contains(s: string, p: string) {
    exists i | 0 <= i <= |s| - |p| :: OccursAt(s, p, i)
  }

  /** Every character of a pattern that occurs in `s` is a character of `s`. */
  lemma ContainedCharsOccur(s: string, p: string, c: char)
    requires Contains(s, p) && c in p
    ensures c in s
  {
    var i :| 0 <= i <= |s| - |p| && OccursAt(s, p, i);
    var j :| 0 <= j < |p| && p[j] == c;
    assert s[i..i + |p|][j] == s[i + j];
  }

  /** A key that contains `p` contains every prefix of `p`. */
  lemma ContainsPrefixOfPattern(s: string, p: string, q: string)
    requires Contains(s, p) && StartsWith(p, q)
    ensures Contains(s, q)
  {
    var i :| 0 <= i <= |s| - |p| && OccursAt(s, p, i);
    assert s[i..i + |q|] == s[i..i + |p|][..|q|];
    assert OccursAt(s, q, i);
  }

  /** A pattern occurs in any text that spells it out between two other texts. */
  lemma ContainsMiddle(a: string, p: string, b: string)
    ensures Contains(a + p + b, p)
  {
    assert (a + p + b)[|a|..|a| + |p|] == p;
    assert OccursAt(a + p + b, p, |a|);
  }

  /** A pattern in the end of a text is in the whole text. */
  lemma ContainsInSuffix(a: string, b: string, p: string)
    requires Contains(b, p)
    ensures Contains(a + b, p)
  {
    var i :| 0 <= i <= |b| - |p| && OccursAt(b, p, i);
    assert (a + b)[|a| + i..|a| + i + |p|] == b[i..i + |p|];
    assert OccursAt(a + b, p, |a| + i);
  }

  /** A pattern holding a character that `s` lacks is not in `s`. */
  lemma MissingCharRulesOut(s: string, p: string, c: char)
    requires c in p && c !in s
    ensures !Contains(s, p)
  {
    if Contains(s, p) {
      ContainedCharsOccur(s, p, c);
    }
  }

  function Upper(c: char): char {
    if 'a' <= c <= 'z' then (c as int - 32) as char else c
  }

  function Lower(c: char): char {
    if 'A' <= c <= 'Z' then (c as int + 32) as char else c
  }

  /** Ruby `downcase` restricted to ASCII: every character is lowered in place. */
  function Downcase(s: string): (r: string)
  {
    seq(|s|, i requires 0 <= i < |s| => Lower(s[i]))
  }

  /** Ruby `capitalize` restricted to ASCII: first character upper case, all others lower case. */
  function Capitalize(s: string): (r: string)
    ensures |r| == |s|
  {
    if s == [] then [] else [Upper(s[0])] + Downcase(s[1..])
  }

  /**
   * Ruby `s.sub(/_./) { |m| m[1].upcase }`: the first underscore that is
   * followed by a character other than a newline (what `.` matches) is dropped
   * and that character upper-cased; the rest of `s` is left alone.
   */
  function SubFirstUnderscore(s: string): string
    decreases |s|
  {
    if |s| >= 2 && s[0] == '_' && s[1] != '\n' then [Upper(s[1])] + s[2..]
    else if s == [] then []
    else [s[0]] + SubFirstUnderscore(s[1..])
  }

  /** Capitalizing only looks at the text up to ASCII case. */
  lemma CapitalizeIgnoresCase(a: string, b: string)
    requires Downcase(a) == Downcase(b)
    ensures Capitalize(a) == Capitalize(b)
  {
    if a != [] {
      assert |b| == |a|;
      assert Lower(a[0]) == Downcase(a)[0] == Downcase(b)[0] == Lower(b[0]);
      assert Upper(a[0]) == Upper(b[0]);
      assert Downcase(a[1..]) == Downcase(a)[1..];
      assert Downcase(b[1..]) == Downcase(b)[1..];
    }
  }

  /** With no underscore before it, the first underscore is the one `sub` rewrites. */
  lemma {:induction false} SubFirstUnderscoreAt(a: string, c: char, rest: string)
    requires '_' !in a && c != '\n'
    ensures SubFirstUnderscore(a + ['_', c] + rest) == a + [Upper(c)] + rest
    decreases |a|
  {
    if a == [] {
      assert a + ['_', c] + rest == ['_', c] + rest;
    } else {
      assert (a + ['_', c] + rest)[1..] == a[1..] + ['_', c] + rest;
      SubFirstUnderscoreAt(a[1..], c, rest);
    }
  }

  /** Without any underscore `sub` changes nothing. */
  lemma {:induction false} SubFirstUnderscoreNone(s: string)
    requires '_' !in s
    ensures SubFirstUnderscore(s) == s
    decreases |s|
  {
    if s != [] {
      SubFirstUnderscoreNone(s[1..]);
    }
  }
}
