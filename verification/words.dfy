/**
 * The string operations the naming code performs: Ruby's `\w` character
 * class, `gsub(/\W/, '')`, `s[0..n-1]`, and `Array#join` with its inverse.
 */
module Words {

  /** Ruby's `\w`: ASCII letters, digits and the underscore. */
  predicate IsWordChar(c: char) {
    'a' <= c <= 'z' || 'A' <= c <= 'Z' || '0' <= c <= '9' || c == '_'
  }

  predicate AllWord(s: string) {
    forall i :: 0 <= i < |s| ==> IsWordChar(s[i])
  }

  /** `s.gsub(/\W/, '')`. */
  function StripNonWord(s: string): (r: string)
    ensures AllWord(r) && |r| <= |s|
    decreases |s|
  {
    if s == [] then [] else (if IsWordChar(s[0]) then [s[0]] else []) + StripNonWord(s[1..])
  }

  /** Stripping keeps every word character of `s`, as often as it occurs, and nothing else. */
  lemma {:induction false} StripKeepsWordChars(s: string, c: char)
    ensures multiset(StripNonWord(s))[c] == if IsWordChar(c) then multiset(s)[c] else 0
    decreases |s|
  {
    if s != [] {
      StripKeepsWordChars(s[1..], c);
      assert s == [s[0]] + s[1..];
    }
  }

  /** Stripping works character by character: the kept characters stay in their original order. */
  lemma {:induction false} StripConcat(a: string, b: string)
    ensures StripNonWord(a + b) == StripNonWord(a) + StripNonWord(b)
    decreases |a|
  {
    if a != [] {
      assert (a + b)[0] == a[0] && (a + b)[1..] == a[1..] + b;
      StripConcat(a[1..], b);
    } else {
      assert a + b == b;
    }
  }

  /** Stripping changes a string exactly when it holds a non-word character. */
  lemma {:induction false} StripFixedPoint(s: string)
    ensures StripNonWord(s) == s <==> AllWord(s)
    decreases |s|
  {
    if s != [] {
      StripFixedPoint(s[1..]);
      if !IsWordChar(s[0]) {
        assert |StripNonWord(s)| < |s|;
      }
    }
  }

  /**
   * `s[0..n - 1]`: the first `n` characters of `s`, or all of `s` when it is shorter. For `n == 0` Ruby's
   * `s[0..-1]` is the whole string, so the budget must be positive; the driver uses 15, 23 and 54.
   */
  function Truncate(s: string, n: nat): (r: string)
    requires n > 0
    ensures |r| == if |s| <= n then |s| else n
    ensures r == s[..|r|]
  {
    if |s| <= n then s else s[..n]
  }

  /** `parts.join([sep])`. */
  function Join(parts: seq<string>, sep: char): string
  {
    if |parts| == 0 then ""
    else if |parts| == 1 then parts[0]
    else parts[0] + [sep] + Join(parts[1..], sep)
  }

  /** Cuts `s` at every `sep`, keeping empty pieces: the inverse of `Join`. */
  function Split(s: string, sep: char): (parts: seq<string>)
    ensures |parts| >= 1
    decreases |s|
  {
    if s == [] then [[]]
    else
      var rest := Split(s[1..], sep);
      if s[0] == sep then [[]] + rest else [[s[0]] + rest[0]] + rest[1..]
  }

  lemma {:induction false} SplitWithoutSeparator(p: string, sep: char)
    requires sep !in p
    ensures Split(p, sep) == [p]
    decreases |p|
  {
    if p != [] {
      SplitWithoutSeparator(p[1..], sep);
      assert [p[0]] + p[1..] == p;
    }
  }

  lemma {:induction false} SplitAtSeparator(p: string, sep: char, rest: string)
    requires sep !in p
    ensures Split(p + [sep] + rest, sep) == [p] + Split(rest, sep)
    decreases |p|
  {
    var s := p + [sep] + rest;
    if p == [] {
      assert s[1..] == rest;
    } else {
      assert s[1..] == p[1..] + [sep] + rest;
      SplitAtSeparator(p[1..], sep, rest);
      assert [p[0]] + p[1..] == p;
    }
  }

  /** Splitting a joined list gives the list back when no part holds the separator. */
  lemma {:induction false} SplitJoin(parts: seq<string>, sep: char)
    requires |parts| >= 1
    requires forall i :: 0 <= i < |parts| ==> sep !in parts[i]
    ensures Split(Join(parts, sep), sep) == parts
    decreases |parts|
  {
    if |parts| == 1 {
      SplitWithoutSeparator(parts[0], sep);
    } else {
      SplitJoin(parts[1..], sep);
      SplitAtSeparator(parts[0], sep, Join(parts[1..], sep));
      assert [parts[0]] + parts[1..] == parts;
    }
  }
}
