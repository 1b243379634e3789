/**
 * The string operations the JavaScript source relies on (`split`, `join`,
 * `includes`, `toLowerCase`, `trim`, `replace` with a string pattern, and
 * number-to-string conversion), written out over `seq<char>`.
 */
module Text {

  /** The characters `String.prototype.trim` removes: ECMAScript WhiteSpace and LineTerminator. */
  predicate IsWhitespace(c: char) {
    || c == '\t' || c == '\n' || c == '\U{000B}' || c == '\U{000C}' || c == '\r' || c == ' '
    || c == '\U{00A0}' || c == '\U{1680}' || ('\U{2000}' <= c <= '\U{200A}')
    || c == '\U{2028}' || c == '\U{2029}' || c == '\U{202F}' || c == '\U{205F}'
    || c == '\U{3000}' || c == '\U{FEFF}'
  }

  /** `s.trim()` is the empty string, i.e. `s.trim()` is falsy. */
  predicate IsBlank(s: string) {
    forall i | 0 <= i < |s| :: IsWhitespace(s[i])
  }

  /** `s.split(d)` for a one-character separator: never empty, and no piece holds `d`. */
  function Split(s: string, d: char): (parts: seq<string>)
    ensures |parts| >= 1
    ensures forall k | 0 <= k < |parts| :: d !in parts[k]
    decreases |s|
  {
    if |s| == 0 then [""]
    else
      var rest := Split(s[1..], d);
      if s[0] == d then [""] + rest else [[s[0]] + rest[0]] + rest[1..]
  }

  /** `parts.join(d)`. */
  function Join(parts: seq<string>, d: char): string
    decreases |parts|
  {
    if |parts| == 0 then ""
    else if |parts| == 1 then parts[0]
    else parts[0] + [d] + Join(parts[1..], d)
  }

  /** Splitting a string that does not contain the separator yields the string itself. */
  lemma {:induction false} SplitWithout(s: string, d: char)
    requires d !in s
    ensures Split(s, d) == [s]
    decreases |s|
  {
    if |s| > 0 {
      SplitWithout(s[1..], d);
      assert [s[0]] + s[1..] == s;
    }
  }

  /** A separator-free prefix is glued onto the first piece of what follows it. */
  lemma {:induction false} SplitPrefix(a: string, rest: string, d: char)
    requires d !in a
    ensures Split(a + rest, d) == [a + Split(rest, d)[0]] + Split(rest, d)[1..]
    decreases |a|
  {
    if |a| > 0 {
      var r := Split(rest, d);
      SplitPrefix(a[1..], rest, d);
      assert (a + rest)[1..] == a[1..] + rest;
      assert (a + rest)[0] == a[0];
      assert [a[0]] + (a[1..] + r[0]) == a + r[0];
    } else {
      var r := Split(rest, d);
      assert a + rest == rest;
      assert a + r[0] == r[0];
      assert [r[0]] + r[1..] == r;
    }
  }

  /** Joining then splitting at a separator no piece contains gives the pieces back. */
  lemma {:induction false} SplitJoin(parts: seq<string>, d: char)
    requires |parts| >= 1
    requires forall k | 0 <= k < |parts| :: d !in parts[k]
    ensures Split(Join(parts, d), d) == parts
    decreases |parts|
  {
    if |parts| == 1 {
      SplitWithout(parts[0], d);
    } else {
      var tail := Join(parts[1..], d);
      SplitJoin(parts[1..], d);
      SplitPrefix(parts[0], [d] + tail, d);
      assert parts[0] + [d] + tail == parts[0] + ([d] + tail);
      assert ([d] + tail)[1..] == tail;
      assert parts[0] + "" == parts[0];
      assert [parts[0]] + parts[1..] == parts;
    }
  }

  /** Splitting then joining at the same separator gives the string back. */
  lemma {:induction false} JoinSplit(s: string, d: char)
    ensures Join(Split(s, d), d) == s
    decreases |s|
  {
    if |s| > 0 {
      var rest := Split(s[1..], d);
      JoinSplit(s[1..], d);
      if s[0] == d {
        assert Split(s, d) == [""] + rest;
        assert ([""] + rest)[1..] == rest;
        assert [d] + s[1..] == s;
      } else {
        var parts := Split(s, d);
        assert parts == [[s[0]] + rest[0]] + rest[1..];
        if |rest| == 1 {
          assert rest == [rest[0]];
        } else {
          assert parts[1..] == rest[1..];
          assert Join(rest, d) == rest[0] + [d] + Join(rest[1..], d);
        }
        assert [s[0]] + s[1..] == s;
      }
    }
  }

  /** Joining one more piece adds the separator and the piece at the end. */
  lemma {:induction false} JoinSnoc(parts: seq<string>, w: string, d: char)
    requires |parts| >= 1
    ensures Join(parts + [w], d) == Join(parts, d) + [d] + w
    decreases |parts|
  {
    if |parts| == 1 {
      assert parts + [w] == [parts[0], w];
      assert [parts[0], w][1..] == [w];
    } else {
      JoinSnoc(parts[1..], w, d);
      assert (parts + [w])[1..] == parts[1..] + [w];
    }
  }

  /** ASCII upper-case letters map to lower case; everything else is kept. */
  function LowerChar(c: char): char {
    if 'A' <= c <= 'Z' then (c as int + 32) as char else c
  }

  /** ASCII lower-case letters map to upper case; everything else is kept. */
  function UpperChar(c: char): char {
    if 'a' <= c <= 'z' then (c as int - 32) as char else c
  }

  /** `s.toLowerCase()` restricted to the ASCII letters. */
  function ToLower(s: string): (r: string)
    ensures |r| == |s|
    ensures forall i | 0 <= i < |s| :: r[i] == LowerChar(s[i])
  {
    seq(|s|, i requires 0 <= i < |s| => LowerChar(s[i]))
  }

  /** `sub` occurs in `s` starting at index `i`. */
  predicate OccursAt(s: string, sub: string, i: int) {
    0 <= i && i + |sub| <= |s| && s[i..i + |sub|] == sub
  }

  /** `s.includes(sub)`. */
  predicate Contains(s: string, sub: string) {
    exists i | 0 <= i <= |s| - |sub| :: OccursAt(s, sub, i)
  }

  /** Every string contains the empty string (an empty search query matches everything). */
  lemma ContainsEmpty(s: string)
    ensures Contains(s, "")
  {
    assert OccursAt(s, "", 0);
  }

  /** An occurrence of `sub` inside an occurrence of `big` is an occurrence in the whole. */
  lemma ContainsTransitive(s: string, big: string, sub: string, offset: nat)
    requires Contains(s, big)
    requires OccursAt(big, sub, offset)
    ensures Contains(s, sub)
  {
    var i :| 0 <= i <= |s| - |big| && OccursAt(s, big, i);
    assert s[i..i + |big|] == big;
    forall k | 0 <= k < |sub|
      ensures s[i + offset + k] == sub[k]
    {
      assert s[i..i + |big|][offset + k] == big[offset + k];
      assert big[offset..offset + |sub|][k] == sub[k];
    }
    assert s[i + offset..i + offset + |sub|] == sub;
    assert OccursAt(s, sub, i + offset);
  }

  /** A decimal digit. */
  predicate IsDigit(c: char) {
    '0' <= c <= '9'
  }

  function DigitChar(d: nat): (c: char)
    requires d < 10
    ensures IsDigit(c)
  {
    "0123456789"[d]
  }

  function DigitValue(c: char): nat
    requires IsDigit(c)
  {
    c as int - '0' as int
  }

  /** The decimal text of `n` (what `${n}` prints for a non-negative integer). */
  function NatToString(n: nat): (r: string)
    ensures |r| >= 1
    ensures forall i | 0 <= i < |r| :: IsDigit(r[i])
    decreases n
  {
    if n < 10 then [DigitChar(n)] else NatToString(n / 10) + [DigitChar(n % 10)]
  }

  /** The decimal text of an integer, with a leading minus sign when negative. */
  function IntToString(n: int): string {
    if n < 0 then "-" + NatToString(-n) else NatToString(n)
  }

  /** Reads a string of decimal digits back as a number. */
  function ParseDigits(s: string): nat
    requires forall i | 0 <= i < |s| :: IsDigit(s[i])
    decreases |s|
  {
    if |s| == 0 then 0 else ParseDigits(s[..|s| - 1]) * 10 + DigitValue(s[|s| - 1])
  }

  /** Printing a number and reading it back gives the number. */
  lemma {:induction false} ParseNatToString(n: nat)
    ensures ParseDigits(NatToString(n)) == n
    decreases n
  {
    var s := NatToString(n);
    if n >= 10 {
      ParseNatToString(n / 10);
      assert s[..|s| - 1] == NatToString(n / 10);
    }
    assert DigitValue(DigitChar(n % 10)) == n % 10;
  }

  /** Distinct numbers print differently. */
  lemma NatToStringInjective(a: nat, b: nat)
    requires NatToString(a) == NatToString(b)
    ensures a == b
  {
    ParseNatToString(a);
    ParseNatToString(b);
  }

  /** `s.replace(a, b)` with one-character string arguments: only the first `a` becomes `b`. */
  function ReplaceFirst(s: string, a: char, b: char): (r: string)
    ensures |r| == |s|
    decreases |s|
  {
    if |s| == 0 then s
    else if s[0] == a then [b] + s[1..]
    else [s[0]] + ReplaceFirst(s[1..], a, b)
  }

  /** The index of the first `a` in `s`. */
  function FirstIndex(s: string, a: char): (i: nat)
    requires a in s
    ensures i < |s| && s[i] == a && a !in s[..i]
    decreases |s|
  {
    if s[0] == a then 0 else 1 + FirstIndex(s[1..], a)
  }

  /**
   * `ReplaceFirst` changes exactly the first occurrence and leaves every other
   * character, later occurrences included, where it was.
   */
  lemma {:induction false} ReplaceFirstAt(s: string, a: char, b: char)
    ensures a !in s ==> ReplaceFirst(s, a, b) == s
    ensures a in s ==> ReplaceFirst(s, a, b) == s[..FirstIndex(s, a)] + [b] + s[FirstIndex(s, a) + 1..]
    decreases |s|
  {
    if |s| > 0 && s[0] != a {
      ReplaceFirstAt(s[1..], a, b);
      if a in s {
        assert a in s[1..];
        assert s[..FirstIndex(s, a)] == [s[0]] + s[1..][..FirstIndex(s[1..], a)];
      } else {
        assert [s[0]] + s[1..] == s;
      }
    }
  }
}
