/** Strings shared by the components: joining with a separator, and decimal digits. */
module Text {

  /** The parts with `sep` between neighbours, as JavaScript's Array.prototype.join
      and Python's str.join do: no parts give "", one part gives itself. */
  function Join(parts: seq<string>, sep: string): (r: string)
    ensures |parts| == 0 ==> r == ""
    ensures |parts| == 1 ==> r == parts[0]
    decreases |parts|
  {
    if |parts| == 0 then ""
    else if |parts| == 1 then parts[0]
    else parts[0] + sep + Join(parts[1..], sep)
  }

  /** Joining one more part adds exactly one separator and the part, unaltered. */
  lemma {:induction false} JoinSnoc(parts: seq<string>, last: string, sep: string)
    ensures Join(parts + [last], sep) == if |parts| == 0 then last else Join(parts, sep) + sep + last
    decreases |parts|
  {
    if |parts| == 0 {
      assert parts + [last] == [last];
    } else {
      var rest := (parts + [last])[1..];
      assert rest == parts[1..] + [last];
      assert Join(parts + [last], sep) == parts[0] + sep + Join(rest, sep);
      if |parts| == 1 {
        assert rest == [last];
      } else {
        JoinSnoc(parts[1..], last, sep);
        assert Join(rest, sep) == Join(parts[1..], sep) + sep + last;
        assert Join(parts, sep) == parts[0] + sep + Join(parts[1..], sep);
      }
    }
  }

  /** Where part `k` starts in the joined string: the lengths of the parts before it,
      each followed by one separator. */
  function Offset(parts: seq<string>, sep: string, k: nat): nat
    requires k <= |parts|
    decreases k
  {
    if k == 0 then 0 else |parts[0]| + |sep| + Offset(parts[1..], sep, k - 1)
  }

  /** A slice of the right operand of a concatenation, read through the concatenation. */
  lemma SliceRight(x: string, y: string, i: nat, j: nat)
    requires i <= j <= |y|
    ensures (x + y)[|x| + i..|x| + j] == y[i..j]
  {
  }

  /** The left operand of a concatenation is its prefix. */
  lemma SliceLeft(x: string, y: string)
    ensures (x + y)[..|x|] == x
  {
  }

  /** Every part appears verbatim at its offset. */
  lemma {:induction false} JoinPartAt(parts: seq<string>, sep: string, k: nat)
    requires k < |parts|
    ensures Offset(parts, sep, k) + |parts[k]| <= |Join(parts, sep)|
    ensures Join(parts, sep)[Offset(parts, sep, k)..Offset(parts, sep, k) + |parts[k]|] == parts[k]
    decreases k
  {
    if |parts| == 1 {
      assert Join(parts, sep) == parts[0];
    } else {
      var head := parts[0] + sep;
      assert Join(parts, sep) == head + Join(parts[1..], sep);
      if k == 0 {
        SliceLeft(parts[0], sep + Join(parts[1..], sep));
      } else {
        JoinPartAt(parts[1..], sep, k - 1);
        var o := Offset(parts[1..], sep, k - 1);
        SliceRight(head, Join(parts[1..], sep), o, o + |parts[k]|);
      }
    }
  }

  /** The right operand of a concatenation is its suffix. */
  lemma SliceSuffix(x: string, y: string)
    ensures (x + y)[|x + y| - |y|..] == y
  {
  }

  /** The joined string ends with the last part. */
  lemma JoinLast(parts: seq<string>, sep: string)
    requires |parts| > 0
    ensures var last := parts[|parts| - 1]; var j := Join(parts, sep);
      |last| <= |j| && j[|j| - |last|..] == last
  {
    var init, last := parts[..|parts| - 1], parts[|parts| - 1];
    assert init + [last] == parts;
    JoinSnoc(init, last, sep);
    if |init| > 0 {
      SliceSuffix(Join(init, sep) + sep, last);
    }
  }

  /** The joined string starts with the first part and ends with the last. */
  lemma JoinEnds(parts: seq<string>, sep: string)
    requires |parts| > 0
    ensures |parts[0]| <= |Join(parts, sep)| && Join(parts, sep)[..|parts[0]|] == parts[0]
    ensures var last := parts[|parts| - 1]; var j := Join(parts, sep);
      |last| <= |j| && j[|j| - |last|..] == last
  {
    JoinPartAt(parts, sep, 0);
    JoinLast(parts, sep);
  }

  /** A single separator follows every part but the last. */
  lemma {:induction false} JoinSepAfter(parts: seq<string>, sep: string, k: nat)
    requires k + 1 < |parts|
    ensures Offset(parts, sep, k) + |parts[k]| + |sep| <= |Join(parts, sep)|
    ensures Join(parts, sep)[Offset(parts, sep, k) + |parts[k]|..Offset(parts, sep, k) + |parts[k]| + |sep|] == sep
    decreases k
  {
    var head := parts[0] + sep;
    assert Join(parts, sep) == head + Join(parts[1..], sep);
    if k == 0 {
      assert Join(parts, sep) == parts[0] + (sep + Join(parts[1..], sep));
      SliceRight(parts[0], sep + Join(parts[1..], sep), 0, |sep|);
      SliceLeft(sep, Join(parts[1..], sep));
    } else {
      JoinSepAfter(parts[1..], sep, k - 1);
      var o := Offset(parts[1..], sep, k - 1) + |parts[k]|;
      SliceRight(head, Join(parts[1..], sep), o, o + |sep|);
    }
  }

  predicate IsDigit(c: char) {
    '0' <= c <= '9'
  }

  predicate AllDigits(s: string) {
    forall i :: 0 <= i < |s| ==> IsDigit(s[i])
  }

  function DigitChar(d: nat): (c: char)
    requires d < 10
    ensures IsDigit(c)
  {
    (('0' as int) + d) as char
  }

  function DigitValue(c: char): nat
    requires IsDigit(c)
  {
    (c as int) - ('0' as int)
  }

  /** The decimal form of a natural number, as JavaScript's String(n) and Python's
      str(n) give it: no sign, no leading zeros. */
  function NatToString(n: nat): (s: string)
    ensures |s| > 0 && AllDigits(s)
    ensures n < 10 <==> |s| == 1
    decreases n
  {
    if n < 10 then [DigitChar(n)] else NatToString(n / 10) + [DigitChar(n % 10)]
  }

  /** The decimal form of an integer, with a leading '-' for a negative one. */
  function IntToString(i: int): (s: string)
    ensures |s| > 0
    ensures i < 0 <==> s[0] == '-'
  {
    if i < 0 then "-" + NatToString(-i) else NatToString(i)
  }

  /** Reads a run of decimal digits back as a number. */
  function ParseDecimal(s: string): nat
    requires AllDigits(s)
    decreases |s|
  {
    if |s| == 0 then 0 else 10 * ParseDecimal(s[..|s| - 1]) + DigitValue(s[|s| - 1])
  }

  /** Reading the decimal form back gives the number: the conversion loses nothing. */
  lemma {:induction false} ParseNatToString(n: nat)
    ensures ParseDecimal(NatToString(n)) == n
    decreases n
  {
    var s := NatToString(n);
    if n >= 10 {
      assert s[..|s| - 1] == NatToString(n / 10);
      ParseNatToString(n / 10);
    }
  }

  /** Distinct numbers have distinct decimal forms. */
  lemma NatToStringInjective(a: nat, b: nat)
    ensures NatToString(a) == NatToString(b) ==> a == b
  {
    ParseNatToString(a);
    ParseNatToString(b);
  }
}
