/** The two built-in string operations the wrap-transaction builder relies on:
    `String.prototype.split` with a one-character separator, and
    `Number.prototype.toString(16)` on integral numbers. Each comes with its
    left inverse (`Join`, `ParseHexNumber`) and the round trip through it. */
module JsStrings {

  // ---------------------------------------------------------------------------
  // Splitting a name into labels
  // ---------------------------------------------------------------------------

  /** `s.split(sep)`: the pieces between occurrences of `sep`. There is always
      at least one piece (the empty string splits into `[""]`), and no piece
      contains the separator. */
  function Split(s: string, sep: char): (r: seq<string>)
    ensures |r| >= 1
    ensures forall i :: 0 <= i < |r| ==> sep !in r[i]
    decreases |s|
  {
    if |s| == 0 then [""]
    else
      var rest := Split(s[1..], sep);
      if s[0] == sep then [""] + rest
      else [[s[0]] + rest[0]] + rest[1..]
  }

  /** `labels.join(sep)`: the pieces with `sep` between each neighbouring pair. */
  function Join(labels: seq<string>, sep: char): string
    requires |labels| >= 1
    decreases |labels|
  {
    if |labels| == 1 then labels[0]
    else labels[0] + [sep] + Join(labels[1..], sep)
  }

  /** Joining the pieces of a split gives back the original string. */
  lemma {:induction false} JoinSplit(s: string, sep: char)
    ensures Join(Split(s, sep), sep) == s
    decreases |s|
  {
    if |s| > 0 {
      var rest := Split(s[1..], sep);
      JoinSplit(s[1..], sep);
      if s[0] == sep {
        assert Split(s, sep) == [""] + rest;
        assert ([""] + rest)[1..] == rest;
      } else {
        var r := Split(s, sep);
        assert r == [[s[0]] + rest[0]] + rest[1..];
        if |rest| > 1 {
          assert r[1..] == rest[1..];
        }
      }
    }
  }

  /** Splitting the join of separator-free pieces gives back those pieces. */
  lemma {:induction false} SplitJoin(labels: seq<string>, sep: char)
    requires |labels| >= 1
    requires forall i :: 0 <= i < |labels| ==> sep !in labels[i]
    ensures Split(Join(labels, sep), sep) == labels
    decreases |labels|, |labels[0]|
  {
    if |labels[0]| > 0 {
      // Peel off the first character of the first piece.
      var c := labels[0][0];
      var shorter := [labels[0][1..]] + labels[1..];
      SplitJoin(shorter, sep);
      assert shorter[0] == labels[0][1..];
      assert Join(labels, sep) == [c] + Join(shorter, sep) by {
        if |labels| > 1 {
          assert shorter[1..] == labels[1..];
        }
      }
      assert c !in [sep] by { assert c == labels[0][0]; }
      assert [c] + shorter[0] == labels[0];
      assert shorter[1..] == labels[1..];
      assert labels == [[c] + shorter[0]] + shorter[1..];
    } else if |labels| > 1 {
      SplitJoin(labels[1..], sep);
      assert Join(labels, sep) == [sep] + Join(labels[1..], sep);
      assert labels == [""] + labels[1..];
    }
  }

  // ---------------------------------------------------------------------------
  // Rendering a number in base 16
  // ---------------------------------------------------------------------------

  /** A lower-case hexadecimal digit, as `toString(16)` writes it. */
  predicate IsHexDigit(c: char)
  {
    '0' <= c <= '9' || 'a' <= c <= 'f'
  }

  /** The lower-case digit for a value below sixteen. */
  function HexDigit(d: nat): (c: char)
    requires d < 16
    ensures IsHexDigit(c)
  {
    if d < 10 then ('0' as int + d) as char else ('a' as int + d - 10) as char
  }

  /** The value of a hexadecimal digit (zero for any other character). */
  function DigitValue(c: char): nat
  {
    if '0' <= c <= '9' then c as int - '0' as int
    else if 'a' <= c <= 'f' then c as int - 'a' as int + 10
    else 0
  }

  /** `n.toString(16)` for a non-negative integer: its hexadecimal digits with
      no leading zero, "0" for zero. */
  function NatToHex(n: nat): (s: string)
    ensures |s| >= 1
    ensures forall i :: 0 <= i < |s| ==> IsHexDigit(s[i])
    ensures s[0] == '0' <==> n == 0
    ensures |s| == 1 <==> n < 16
    decreases n
  {
    if n < 16 then [HexDigit(n)] else NatToHex(n / 16) + [HexDigit(n % 16)]
  }

  /** The value of a string of hexadecimal digits, most significant first. */
  function HexToNat(s: string): nat
    decreases |s|
  {
    if |s| == 0 then 0 else 16 * HexToNat(s[..|s| - 1]) + DigitValue(s[|s| - 1])
  }

  /** Reading back the digits that `NatToHex` writes gives the number. */
  lemma {:induction false} HexToNatOfNatToHex(n: nat)
    ensures HexToNat(NatToHex(n)) == n
    decreases n
  {
    var s := NatToHex(n);
    if n >= 16 {
      HexToNatOfNatToHex(n / 16);
      assert s[..|s| - 1] == NatToHex(n / 16);
    }
  }

  /** `n.toString(16)` for an integral JavaScript number: a minus sign before
      the digits of the magnitude when `n` is negative. */
  function NumberToString16(n: int): (s: string)
    ensures |s| >= 1
    ensures s[0] == '-' <==> n < 0
    ensures forall i :: (if n < 0 then 1 else 0) <= i < |s| ==> IsHexDigit(s[i])
  {
    if n < 0 then "-" + NatToHex(-n) else NatToHex(n)
  }

  /** A left inverse of `NumberToString16`: an optional minus sign, then digits.
      It is lenient on other input (any other character reads as a zero digit). */
  function ParseHexNumber(s: string): int
  {
    if |s| > 0 && s[0] == '-' then -(HexToNat(s[1..]) as int) else HexToNat(s)
  }

  /** The base-16 rendering loses nothing: parsing it gives back the number. */
  lemma NumberToString16RoundTrip(n: int)
    ensures ParseHexNumber(NumberToString16(n)) == n
  {
    if n < 0 {
      HexToNatOfNatToHex(-n);
      assert NumberToString16(n)[1..] == NatToHex(-n);
    } else {
      HexToNatOfNatToHex(n);
      assert IsHexDigit(NatToHex(n)[0]);
    }
  }

  /** Distinct numbers are rendered as distinct strings. */
  lemma NumberToString16Injective(a: int, b: int)
    requires NumberToString16(a) == NumberToString16(b)
    ensures a == b
  {
    NumberToString16RoundTrip(a);
    NumberToString16RoundTrip(b);
  }

  /** The rendering is canonical: "0" only for zero, otherwise no leading zero
      (after the sign), and only lower-case digits. */
  lemma NumberToString16Canonical(n: int)
    ensures NumberToString16(n) == "0" <==> n == 0
    ensures n > 0 ==> NumberToString16(n)[0] != '0' && forall i :: 0 <= i < |NumberToString16(n)| ==> IsHexDigit(NumberToString16(n)[i])
    ensures n < 0 ==> NumberToString16(n)[0] == '-' && NumberToString16(n)[1] != '0'
  {
  }
}
