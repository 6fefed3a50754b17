/** `sanitize_input` of backend/app.py: `re.sub(r'[^\w\s@.-]', '', s)` deletes every
    character that is not a word character, whitespace, `@`, `.` or `-`.
    The character classes are those of Python's `re` restricted to ASCII: a code point
    of 128 or more is treated as neither a word character nor whitespace. */
module Sanitizer {

  /** `\w` on ASCII: letters, digits and the underscore. */
  predicate IsWord(c: char) {
    ('a' <= c <= 'z') || ('A' <= c <= 'Z') || ('0' <= c <= '9') || c == '_'
  }

  /** `\s` on ASCII, as `str.isspace()` decides it: space, tab, line feed, vertical tab,
      form feed, carriage return (9 to 13) and the four separators 28 to 31. */
  predicate IsSpace(c: char) {
    c == ' ' || (9 <= c as int <= 13) || (28 <= c as int <= 31)
  }

  /** The characters the pattern `[^\w\s@.-]` does not match, i.e. the ones kept. */
  predicate Allowed(c: char) {
    IsWord(c) || IsSpace(c) || c == '@' || c == '.' || c == '-'
  }

  predicate AllAllowed(s: string) {
    forall i | 0 <= i < |s| :: Allowed(s[i])
  }

  /** Every match of the one-character class is replaced by the empty string. */
  function Sanitize(s: string): (r: string)
    ensures AllAllowed(r)
    ensures |r| <= |s|
  {
    if s == [] then []
    else (if Allowed(s[0]) then [s[0]] else []) + Sanitize(s[1..])
  }

  /** `r` can be obtained from `s` by deleting characters, keeping the order of the rest. */
  predicate IsSubsequence(r: string, s: string)
    decreases |s|
  {
    if r == [] then true
    else if s == [] then false
    else if r[0] == s[0] then IsSubsequence(r[1..], s[1..])
    else IsSubsequence(r, s[1..])
  }

  lemma {:induction false} SubsequenceOfTail(r: string, x: char, s: string)
    requires IsSubsequence(r, s)
    requires r == [] || r[0] != x
    ensures IsSubsequence(r, [x] + s)
  {
    assert ([x] + s)[1..] == s;
  }

  /** The output keeps the input's order: it is a subsequence of the input. */
  lemma {:induction false} SanitizeIsSubsequence(s: string)
    ensures IsSubsequence(Sanitize(s), s)
  {
    if s != [] {
      SanitizeIsSubsequence(s[1..]);
      if Allowed(s[0]) {
        var r := Sanitize(s);
        assert r == [s[0]] + Sanitize(s[1..]);
        assert r[0] == s[0] && r[1..] == Sanitize(s[1..]);
      } else {
        assert Sanitize(s) == Sanitize(s[1..]);
        assert s == [s[0]] + s[1..];
        SubsequenceOfTail(Sanitize(s[1..]), s[0], s[1..]);
      }
    }
  }

  /** Each allowed character occurs in the output exactly as often as in the input,
      and no disallowed character occurs at all. */
  lemma {:induction false} SanitizeCounts(s: string, c: char)
    ensures multiset(Sanitize(s))[c] == if Allowed(c) then multiset(s)[c] else 0
  {
    if s != [] {
      SanitizeCounts(s[1..], c);
      assert s == [s[0]] + s[1..];
      assert multiset(s) == multiset([s[0]]) + multiset(s[1..]);
    }
  }

  /** Sanitizing distributes over concatenation: each character is judged on its own. */
  lemma {:induction false} SanitizeConcat(a: string, b: string)
    ensures Sanitize(a + b) == Sanitize(a) + Sanitize(b)
  {
    if a == [] {
      assert a + b == b;
    } else {
      var head := if Allowed(a[0]) then [a[0]] else [];
      assert (a + b)[0] == a[0] && (a + b)[1..] == a[1..] + b;
      assert Sanitize(a + b) == head + Sanitize(a[1..] + b);
      SanitizeConcat(a[1..], b);
      assert Sanitize(a) == head + Sanitize(a[1..]);
    }
  }

  /** A string with no disallowed character is returned unchanged, and only such a string is. */
  lemma {:induction false} SanitizeFixedPoints(s: string)
    ensures Sanitize(s) == s <==> AllAllowed(s)
  {
    if AllAllowed(s) {
      SanitizeKeepsClean(s);
    }
  }

  lemma {:induction false} SanitizeKeepsClean(s: string)
    requires AllAllowed(s)
    ensures Sanitize(s) == s
  {
    if s != [] {
      assert Allowed(s[0]);
      SanitizeKeepsClean(s[1..]);
    }
  }

  /** The output is as long as the input exactly when nothing was deleted. */
  lemma {:induction false} SanitizeLength(s: string)
    ensures |Sanitize(s)| == |s| <==> AllAllowed(s)
  {
    if s != [] {
      SanitizeLength(s[1..]);
      if !Allowed(s[0]) {
        assert !AllAllowed(s);
      } else if !AllAllowed(s[1..]) {
        var i :| 0 <= i < |s[1..]| && !Allowed(s[1..][i]);
        assert !Allowed(s[i + 1]);
      }
    }
  }

  /** Sanitizing twice is the same as sanitizing once. */
  lemma SanitizeIdempotent(s: string)
    ensures Sanitize(Sanitize(s)) == Sanitize(s)
  {
    SanitizeKeepsClean(Sanitize(s));
  }
}
