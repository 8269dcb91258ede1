/**
 * The java.lang.String operations the framework relies on, on `seq<char>`: endsWith,
 * startsWith, lastIndexOf, single-character replace, the literal "%20" replaceAll,
 * split on one separator character (with Java's removal of trailing empty strings),
 * ASCII upper-casing and the 32-bit hashCode.
 */
module JavaString {

  /** String.startsWith: s begins with prefix, character by character. */
  predicate StartsWith(s: string, prefix: string): (b: bool)
    ensures b <==> |prefix| <= |s| && forall k | 0 <= k < |prefix| :: s[k] == prefix[k]
  {
    |prefix| <= |s| && s[..|prefix|] == prefix
  }

  /** String.endsWith: the last |suffix| characters of s are suffix, character by character. */
  predicate EndsWith(s: string, suffix: string): (b: bool)
    ensures b <==> |suffix| <= |s| && forall k | 0 <= k < |suffix| :: s[|s| - |suffix| + k] == suffix[k]
  {
    |suffix| <= |s| && s[|s| - |suffix|..] == suffix
  }

  /** String.lastIndexOf(ch): the largest index holding ch, or -1 when there is none. */
  function LastIndexOf(s: string, ch: char): (i: int)
    ensures -1 <= i < |s|
    ensures i >= 0 ==> s[i] == ch
    ensures forall k | i < k < |s| :: s[k] != ch
  {
    if |s| == 0 then -1
    else if s[|s| - 1] == ch then |s| - 1
    else LastIndexOf(s[..|s| - 1], ch)
  }

  /** String.replace(from, to) for single characters (and replaceAll of a one-character literal). */
  function ReplaceChar(s: string, from: char, to: char): (r: string)
    ensures |r| == |s|
    ensures forall k | 0 <= k < |s| :: r[k] == if s[k] == from then to else s[k]
  {
    if |s| == 0 then "" else ReplaceChar(s[..|s| - 1], from, to) + [if s[|s| - 1] == from then to else s[|s| - 1]]
  }

  /** The three characters "%20" start at position k of s. */
  predicate EscapeAt(s: string, k: int) {
    0 <= k && k + 3 <= |s| && s[k] == '%' && s[k + 1] == '2' && s[k + 2] == '0'
  }

  /** replaceAll("%20", " "): left to right, every non-overlapping "%20" becomes one space. */
  function DecodeSpaces(s: string): (r: string)
    ensures |r| <= |s|
    ensures |r| == 0 <==> |s| == 0
  {
    if |s| == 0 then ""
    else if EscapeAt(s, 0) then " " + DecodeSpaces(s[3..])
    else [s[0]] + DecodeSpaces(s[1..])
  }

  /** The first character of a decoded string: a space for a leading "%20", the string's own otherwise. */
  lemma {:induction false} DecodeSpacesHead(s: string)
    requires |s| > 0
    ensures |DecodeSpaces(s)| > 0
    ensures DecodeSpaces(s)[0] == if EscapeAt(s, 0) then ' ' else s[0]
  {
  }

  /**
   * A decoded string never starts with "%20": a leading '%' is copied only when s does not start
   * with "%20", and then the next two decoded characters cannot be "20".
   */
  lemma {:induction false} NoEscapeAtStart(s: string)
    ensures !EscapeAt(DecodeSpaces(s), 0)
  {
    if |s| >= 2 && s[0] == '%' && !EscapeAt(s, 0) {
      var t := s[1..];
      assert DecodeSpaces(s) == [s[0]] + DecodeSpaces(t);
      DecodeSpacesHead(t);
      if t[0] == '2' && |t| >= 2 {
        assert DecodeSpaces(t) == [t[0]] + DecodeSpaces(t[1..]);
        DecodeSpacesHead(t[1..]);
      }
    } else if |s| > 0 {
      DecodeSpacesHead(s);
    }
  }

  /** No "%20" survives the replacement, since the inserted spaces cannot take part in a new one. */
  lemma {:induction false} DecodeSpacesRemovesEscapes(s: string)
    ensures forall k :: !EscapeAt(DecodeSpaces(s), k)
    decreases |s|
  {
    var r := DecodeSpaces(s);
    if |s| == 0 {
    } else if EscapeAt(s, 0) {
      DecodeSpacesRemovesEscapes(s[3..]);
      var rest := DecodeSpaces(s[3..]);
      assert r == " " + rest;
      forall k ensures !EscapeAt(r, k) {
        if k >= 1 {
          assert EscapeAt(r, k) ==> EscapeAt(rest, k - 1);
        }
      }
    } else {
      DecodeSpacesRemovesEscapes(s[1..]);
      var rest := DecodeSpaces(s[1..]);
      assert r == [s[0]] + rest;
      forall k ensures !EscapeAt(r, k) {
        if k >= 1 {
          assert EscapeAt(r, k) ==> EscapeAt(rest, k - 1);
        } else {
          NoEscapeAtStart(s);
        }
      }
    }
  }

  /** A string without '%' is left unchanged by the replacement. */
  lemma {:induction false} DecodeSpacesWithoutPercent(s: string)
    requires '%' !in s
    ensures DecodeSpaces(s) == s
  {
    if |s| > 0 {
      assert s == [s[0]] + s[1..];
      DecodeSpacesWithoutPercent(s[1..]);
    }
  }

  /** The pieces of s between occurrences of sep, empty ones included: one more than there are separators. */
  function Fields(s: string, sep: char): (parts: seq<string>)
    ensures |parts| >= 1
  {
    if |s| == 0 then [""]
    else
      var rest := Fields(s[1..], sep);
      if s[0] == sep then [""] + rest else [[s[0]] + rest[0]] + rest[1..]
  }

  /** The pieces joined back with the separator. */
  function Join(parts: seq<string>, sep: char): string
    requires |parts| >= 1
  {
    if |parts| == 1 then parts[0] else parts[0] + [sep] + Join(parts[1..], sep)
  }

  /** The pieces hold no separator, and joining them with it gives back the string. */
  lemma {:induction false} FieldsJoin(s: string, sep: char)
    ensures Join(Fields(s, sep), sep) == s
    ensures forall i | 0 <= i < |Fields(s, sep)| :: sep !in Fields(s, sep)[i]
  {
    if |s| > 0 {
      FieldsJoin(s[1..], sep);
      var rest := Fields(s[1..], sep);
      if s[0] == sep {
        assert Fields(s, sep)[1..] == rest;
        assert s == [sep] + s[1..];
      } else {
        var parts := Fields(s, sep);
        assert parts[0] == [s[0]] + rest[0];
        assert parts[1..] == rest[1..];
        if |rest| == 1 {
          assert s == [s[0]] + rest[0];
        } else {
          assert Join(rest, sep) == rest[0] + [sep] + Join(rest[1..], sep);
          assert s == [s[0]] + s[1..];
        }
        forall i | 0 <= i < |parts| ensures sep !in parts[i] {
          if i == 0 {
            assert sep !in rest[0];
          } else {
            assert parts[i] == rest[i];
          }
        }
      }
    }
  }

  /** A string without the separator is a single piece. */
  lemma {:induction false} FieldsWithoutSeparator(s: string, sep: char)
    requires sep !in s
    ensures Fields(s, sep) == [s]
  {
    if |s| > 0 {
      FieldsWithoutSeparator(s[1..], sep);
      assert [s[0]] + s[1..] == s;
    }
  }

  /** A separator-free piece followed by the separator is the first piece; the rest is split on. */
  lemma {:induction false} FieldsOfPiece(a: string, sep: char, t: string)
    requires sep !in a
    ensures Fields(a + [sep] + t, sep) == [a] + Fields(t, sep)
  {
    var s := a + [sep] + t;
    if |a| == 0 {
      assert s == [sep] + t;
      assert s[1..] == t;
    } else {
      FieldsOfPiece(a[1..], sep, t);
      assert s[1..] == a[1..] + [sep] + t;
      assert [a[0]] + a[1..] == a;
    }
  }

  /** Java's split with limit 0 drops the empty strings at the end of the result. */
  function DropTrailingEmpty(parts: seq<string>): (r: seq<string>)
    ensures |r| <= |parts| && r == parts[..|r|]
    ensures |r| > 0 ==> r[|r| - 1] != ""
    ensures forall i | |r| <= i < |parts| :: parts[i] == ""
  {
    if |parts| == 0 then []
    else if parts[|parts| - 1] == "" then DropTrailingEmpty(parts[..|parts| - 1])
    else parts
  }

  /**
   * String.split of a one-character regular expression: a string without the separator
   * (the empty string among them) gives itself alone; otherwise the pieces, trailing
   * empty ones removed.
   */
  function Split(s: string, sep: char): (parts: seq<string>)
    ensures forall i | 0 <= i < |parts| :: sep !in parts[i]
  {
    FieldsJoin(s, sep);
    if sep !in s then [s] else DropTrailingEmpty(Fields(s, sep))
  }

  /** Upper-casing of the ASCII letters; other characters are kept. */
  function UpperChar(ch: char): char {
    if 'a' <= ch <= 'z' then (ch as int - 32) as char else ch
  }

  /** String.toUpperCase restricted to ASCII letters. */
  function UpperAscii(s: string): (r: string)
    ensures |r| == |s|
    ensures forall k | 0 <= k < |s| :: r[k] == UpperChar(s[k])
  {
    if |s| == 0 then "" else UpperAscii(s[..|s| - 1]) + [UpperChar(s[|s| - 1])]
  }

  /** Upper-casing twice is upper-casing once. */
  lemma UpperAsciiIdempotent(s: string)
    ensures UpperAscii(UpperAscii(s)) == UpperAscii(s)
  {
    var u := UpperAscii(s);
    assert forall k | 0 <= k < |u| :: UpperChar(u[k]) == u[k];
  }

  const TWO_32: int := 0x1_0000_0000
  const TWO_31: int := 0x8000_0000

  /** Java int arithmetic: the value in [-2^31, 2^31) congruent to x modulo 2^32. */
  function Wrap32(x: int): (w: int)
    ensures -TWO_31 <= w < TWO_31
    ensures (w - x) % TWO_32 == 0
  {
    var m := x % TWO_32;
    if m >= TWO_31 then m - TWO_32 else m
  }

  /** Two integers congruent modulo 2^32 wrap to the same int. */
  lemma WrapCongruent(x: int, y: int)
    requires (x - y) % TWO_32 == 0
    ensures Wrap32(x) == Wrap32(y)
  {
    var k := (x - y) / TWO_32;
    assert x == y + k * TWO_32;
    ModShift(y, k);
  }

  lemma ModShift(y: int, k: int)
    ensures (y + k * TWO_32) % TWO_32 == y % TWO_32
  {
  }

  /** String.hashCode: h = 31 * h + c over the characters, in 32-bit arithmetic. */
  function HashCode(s: string): (h: int)
    ensures -TWO_31 <= h < TWO_31
  {
    if |s| == 0 then 0 else Wrap32(31 * HashCode(s[..|s| - 1]) + s[|s| - 1] as int)
  }

  /** The same polynomial over unbounded integers: s[0]*31^(n-1) + ... + s[n-1]. */
  function HashPolynomial(s: string): int {
    if |s| == 0 then 0 else 31 * HashPolynomial(s[..|s| - 1]) + s[|s| - 1] as int
  }

  /** Wrapping at every step gives the unbounded polynomial wrapped once. */
  lemma {:induction false} HashCodeIsWrappedPolynomial(s: string)
    ensures HashCode(s) == Wrap32(HashPolynomial(s))
  {
    if |s| > 0 {
      var p := s[..|s| - 1];
      HashCodeIsWrappedPolynomial(p);
      var c := s[|s| - 1] as int;
      var w := HashCode(p);
      var x := HashPolynomial(p);
      assert (w - x) % TWO_32 == 0;
      var k := (w - x) / TWO_32;
      assert (31 * w + c) - (31 * x + c) == (31 * k) * TWO_32;
      ModShift(0, 31 * k);
      WrapCongruent(31 * w + c, 31 * x + c);
    }
  }
}
