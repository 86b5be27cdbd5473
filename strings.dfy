/** The two string operations of the standard library that the salary API relies on. */
module Strings {

  /**
   * `toUpperCase` on one character, restricted to ASCII: 'a'..'z' become
   * 'A'..'Z' and every other character is left as it is.
   */
  function UpperChar(c: char): char
  {
    if 'a' <= c <= 'z' then (c as int - 32) as char else c
  }

  /** `String.prototype.toUpperCase` with ASCII case mapping, one character at a time. */
  function Upper(s: string): (r: string)
    ensures |r| == |s|
    ensures forall i :: 0 <= i < |s| ==> r[i] == UpperChar(s[i])
  {
    if s == [] then [] else [UpperChar(s[0])] + Upper(s[1..])
  }

  /** Uppercasing leaves no lower-case ASCII letter behind. */
  lemma UpperHasNoLowercase(s: string)
    ensures forall i :: 0 <= i < |Upper(s)| ==> !('a' <= Upper(s)[i] <= 'z')
  {
  }

  /** Uppercasing twice is uppercasing once, so "usd" and "USD" normalise alike. */
  lemma {:induction false} UpperIdempotent(s: string)
    ensures Upper(Upper(s)) == Upper(s)
  {
    if s != [] {
      UpperIdempotent(s[1..]);
      assert Upper(s) == [UpperChar(s[0])] + Upper(s[1..]);
    }
  }

  /** Whether `s` ends with `suffix`. */
  predicate EndsWith(s: string, suffix: string)
  {
    |suffix| <= |s| && s[|s| - |suffix|..] == suffix
  }

  /** `Array.prototype.join(sep)` on an array of strings. */
  function Join(parts: seq<string>, sep: string): string
  {
    if |parts| == 0 then ""
    else if |parts| == 1 then parts[0]
    else parts[0] + sep + Join(parts[1..], sep)
  }

  /** A string is a prefix of itself followed by anything, and the rest is its suffix. */
  lemma ConcatEnds(s: string, t: string)
    ensures s <= s + t
    ensures EndsWith(s + t, t)
  {
    assert (s + t)[..|s|] == s;
    assert (s + t)[|s + t| - |t|..] == t;
  }

  /** Being a prefix is transitive. */
  lemma PrefixTransitive(r: string, s: string, t: string)
    requires r <= s && s <= t
    ensures r <= t
  {
    assert t[..|r|] == s[..|r|];
  }

  /** Two parts joined: the first, the separator, the second. */
  lemma JoinTwo(first: string, second: string, sep: string)
    ensures Join([first, second], sep) == first + sep + second
  {
    assert [first, second][1..] == [second];
  }

  /**
   * A join is empty for no parts and the part itself for one; otherwise it
   * starts with the first part followed by the separator, and ends with the
   * separator followed by the last part.
   */
  lemma {:induction false} JoinEnds(parts: seq<string>, sep: string)
    ensures parts == [] ==> Join(parts, sep) == ""
    ensures |parts| == 1 ==> Join(parts, sep) == parts[0]
    ensures |parts| > 1 ==> parts[0] + sep <= Join(parts, sep)
    ensures |parts| > 1 ==> EndsWith(Join(parts, sep), sep + parts[|parts| - 1])
  {
    if |parts| > 2 {
      JoinEnds(parts[1..], sep);
      var rest := Join(parts[1..], sep);
      var suffix := sep + parts[|parts| - 1];
      assert Join(parts, sep) == parts[0] + sep + rest;
      assert rest[|rest| - |suffix|..] == suffix;
      assert (parts[0] + sep + rest)[|parts[0] + sep + rest| - |suffix|..] == rest[|rest| - |suffix|..];
    }
  }
}
