/**
 Text helpers the two pages use when they build prompts: substring containment,
 Python's `str()` of a non-negative integer, and `sep.join(items)`.
 */
module Strings {

  /** `part` occurs somewhere inside `s` (Python's `part in s`). */
  predicate Contains(s: string, part: string)
  {
    exists k :: 0 <= k <= |s| && part <= s[k..]
  }

  /** Whatever stands between a prefix and a suffix is contained in the whole. */
  lemma ContainsMiddle(a: string, b: string, c: string)
    ensures Contains(a + b + c, b)
  {
    assert (a + b + c)[|a|..] == b + c;
  }

  /** Containment is transitive. */
  lemma ContainsTrans(a: string, b: string, c: string)
    requires Contains(a, b) && Contains(b, c)
    ensures Contains(a, c)
  {
    var i :| 0 <= i <= |a| && b <= a[i..];
    var j :| 0 <= j <= |b| && c <= b[j..];
    assert a[i + j..][..|c|] == c by {
      forall m | 0 <= m < |c| ensures a[i + j..][m] == c[m] {
        assert c[m] == b[j + m] == a[i..][j + m];
      }
    }
  }

  function Digit(d: nat): char
    requires d < 10
  {
    "0123456789"[d]
  }

  predicate IsDigit(c: char)
  {
    '0' <= c <= '9'
  }

  function DigitValue(c: char): (v: nat)
    requires IsDigit(c)
    ensures v < 10
  {
    c as int - '0' as int
  }

  /** The decimal text Python's `str(n)` gives for a non-negative integer `n`. */
  function Decimal(n: nat): (r: string)
    ensures |r| >= 1
    ensures forall i :: 0 <= i < |r| ==> IsDigit(r[i])
    ensures |r| > 1 ==> r[0] != '0'
    decreases n
  {
    if n < 10 then [Digit(n)] else Decimal(n / 10) + [Digit(n % 10)]
  }

  /** Reads a string of decimal digits back as a number. */
  function ParseDecimal(s: string): nat
    requires forall i :: 0 <= i < |s| ==> IsDigit(s[i])
    decreases |s|
  {
    if s == [] then 0 else ParseDecimal(s[..|s| - 1]) * 10 + DigitValue(s[|s| - 1])
  }

  /** The decimal text of a number denotes that number. */
  lemma {:induction false} DecimalRoundTrip(n: nat)
    ensures ParseDecimal(Decimal(n)) == n
    decreases n
  {
    var r := Decimal(n);
    if n < 10 {
      assert r[..|r| - 1] == [];
    } else {
      DecimalRoundTrip(n / 10);
      assert r[..|r| - 1] == Decimal(n / 10);
      assert DigitValue(r[|r| - 1]) == n % 10;
    }
  }

  /** A text contains itself at its front. */
  lemma ContainsPrefix(a: string, b: string)
    ensures Contains(a + b, a)
  {
    assert (a + b)[0..] == a + b;
  }

  /** Whatever a suffix contains, the whole contains. */
  lemma ContainsSuffix(a: string, b: string, part: string)
    requires Contains(b, part)
    ensures Contains(a + b, part)
  {
    var k :| 0 <= k <= |b| && part <= b[k..];
    assert (a + b)[|a| + k..] == b[k..];
  }

  /**
   All pieces concatenated in order (Python's `"".join(pieces)`, and what an
   f-string does with its literal parts and interpolated values): every piece
   occurs in the result.
   */
  function Concat(pieces: seq<string>): (r: string)
    ensures forall i :: 0 <= i < |pieces| ==> Contains(r, pieces[i])
    decreases |pieces|
  {
    if pieces == [] then ""
    else
      var rest := Concat(pieces[1..]);
      ContainsPrefix(pieces[0], rest);
      assert forall i :: 1 <= i < |pieces| ==> Contains(pieces[0] + rest, pieces[i]) by {
        forall i | 1 <= i < |pieces| ensures Contains(pieces[0] + rest, pieces[i]) {
          assert pieces[i] == pieces[1..][i - 1];
          ContainsSuffix(pieces[0], rest, pieces[i]);
        }
      }
      pieces[0] + rest
  }

  lemma {:induction false} ConcatAppend(a: seq<string>, b: seq<string>)
    ensures Concat(a + b) == Concat(a) + Concat(b)
    decreases |a|
  {
    if a == [] {
      assert a + b == b;
    } else {
      ConcatAppend(a[1..], b);
      assert (a + b)[1..] == a[1..] + b;
    }
  }

  /** Python's `sep.join(items)`. */
  function Join(items: seq<string>, sep: string): string
    decreases |items|
  {
    if |items| == 0 then ""
    else if |items| == 1 then items[0]
    else items[0] + sep + Join(items[1..], sep)
  }

  /** Every item of a join occurs in the joined text. */
  lemma {:induction false} JoinContains(items: seq<string>, sep: string, i: nat)
    requires i < |items|
    ensures Contains(Join(items, sep), items[i])
    decreases |items|
  {
    if |items| == 1 {
      ContainsMiddle("", items[0], "");
      assert "" + items[0] + "" == items[0];
    } else if i == 0 {
      ContainsMiddle("", items[0], sep + Join(items[1..], sep));
      assert "" + items[0] + (sep + Join(items[1..], sep)) == Join(items, sep);
    } else {
      JoinContains(items[1..], sep, i - 1);
      var rest := Join(items[1..], sep);
      var k :| 0 <= k <= |rest| && items[i] <= rest[k..];
      var whole := Join(items, sep);
      var off := |items[0] + sep|;
      assert whole == items[0] + sep + rest;
      assert whole[off + k..] == rest[k..];
    }
  }
}
