/** String rendering used by the command's messages: quoting, joining and decimal numbers. */
module Text {

  /** Go's %q rendering of a string (escape sequences are not modelled). */
  function Quote(s: string): string {
    "\"" + s + "\""
  }

  /** Go's %q rendering of a slice of strings: `["a" "b"]`. */
  function QuoteList(items: seq<string>): string {
    "[" + Join(seq(|items|, i requires 0 <= i < |items| => Quote(items[i])), " ") + "]"
  }

  /** Go's strings.Join: the parts in order, with `sep` between neighbours. */
  function Join(parts: seq<string>, sep: string): (r: string)
  {
    if |parts| == 0 then ""
    else if |parts| == 1 then parts[0]
    else parts[0] + sep + Join(parts[1..], sep)
  }

  /** Where part `i` starts inside Join(parts, sep): the earlier parts, each followed by `sep`. */
  function Offset(parts: seq<string>, sep: string, i: nat): nat
    requires i <= |parts|
  {
    if i == 0 then 0 else |parts[0]| + |sep| + Offset(parts[1..], sep, i - 1)
  }

  /** The next part starts right after the current part and one separator. */
  lemma {:induction false} OffsetNext(parts: seq<string>, sep: string, i: nat)
    requires i < |parts|
    ensures Offset(parts, sep, i + 1) == Offset(parts, sep, i) + |parts[i]| + |sep|
  {
    if i > 0 {
      OffsetNext(parts[1..], sep, i - 1);
    }
  }

  /** The joined string ends where the last part ends: no trailing separator. */
  lemma {:induction false} JoinLength(parts: seq<string>, sep: string)
    requires |parts| > 0
    ensures |Join(parts, sep)| == Offset(parts, sep, |parts| - 1) + |parts[|parts| - 1]|
  {
    if |parts| > 1 {
      var n := |parts|;
      JoinLength(parts[1..], sep);
      assert parts[1..][n - 2] == parts[n - 1];
      assert Offset(parts, sep, n - 1) == |parts[0]| + |sep| + Offset(parts[1..], sep, n - 2);
      JoinUnfold(parts, sep);
    }
  }

  /** A join of two or more parts is the first part, a separator, and the join of the rest. */
  lemma JoinUnfold(parts: seq<string>, sep: string)
    requires |parts| >= 2
    ensures Join(parts, sep) == (parts[0] + sep) + Join(parts[1..], sep)
  {
  }

  /** Slicing past a prefix is slicing the rest. */
  lemma SliceAfterPrefix(x: string, y: string, a: nat, b: nat)
    requires a <= b <= |y|
    ensures (x + y)[|x| + a..|x| + b] == y[a..b]
  {
  }

  /** Every part appears, unchanged and in order, at its offset in the joined string. */
  lemma {:induction false} JoinPart(parts: seq<string>, sep: string, i: nat)
    requires i < |parts|
    ensures Offset(parts, sep, i) + |parts[i]| <= |Join(parts, sep)|
    ensures Join(parts, sep)[Offset(parts, sep, i)..Offset(parts, sep, i) + |parts[i]|] == parts[i]
  {
    if |parts| == 1 {
      assert Join(parts, sep) == parts[0];
    } else {
      var head := parts[0] + sep;
      var rest := Join(parts[1..], sep);
      JoinUnfold(parts, sep);
      if i == 0 {
        assert (head + rest)[0..|parts[0]|] == parts[0];
      } else {
        var a := Offset(parts[1..], sep, i - 1);
        JoinPart(parts[1..], sep, i - 1);
        assert parts[1..][i - 1] == parts[i];
        assert Offset(parts, sep, i) == |head| + a;
        SliceAfterPrefix(head, rest, a, a + |parts[i]|);
      }
    }
  }

  /** Consecutive parts are separated by exactly `sep` in the joined string. */
  lemma {:induction false} JoinSeparator(parts: seq<string>, sep: string, i: nat)
    requires i + 1 < |parts|
    ensures Offset(parts, sep, i) + |parts[i]| + |sep| <= |Join(parts, sep)|
    ensures Join(parts, sep)[Offset(parts, sep, i) + |parts[i]|..Offset(parts, sep, i) + |parts[i]| + |sep|] == sep
  {
    var head := parts[0] + sep;
    var rest := Join(parts[1..], sep);
    JoinUnfold(parts, sep);
    if i == 0 {
      assert (head + rest)[|parts[0]|..|parts[0]| + |sep|] == sep;
    } else {
      var x := Offset(parts[1..], sep, i - 1) + |parts[i]|;
      JoinSeparator(parts[1..], sep, i - 1);
      assert parts[1..][i - 1] == parts[i];
      assert Offset(parts, sep, i) + |parts[i]| == |head| + x;
      SliceAfterPrefix(head, rest, x, x + |sep|);
    }
  }

  predicate IsDigit(c: char) {
    '0' <= c <= '9'
  }

  function Digit(d: nat): (c: char)
    requires d < 10
  {
    ('0' as int + d) as char
  }

  /** Go's %d rendering of a natural number. */
  function Decimal(n: nat): (s: string)
    ensures |s| >= 1
    ensures forall i :: 0 <= i < |s| ==> IsDigit(s[i])
    ensures |s| > 1 ==> s[0] != '0'
  {
    if n < 10 then [Digit(n)] else Decimal(n / 10) + [Digit(n % 10)]
  }

  /** Reads a string of decimal digits back as a number. */
  function ParseDecimal(s: string): nat
    requires forall i :: 0 <= i < |s| ==> IsDigit(s[i])
  {
    if |s| == 0 then 0
    else
      assert IsDigit(s[|s| - 1]);
      ParseDecimal(s[..|s| - 1]) * 10 + (s[|s| - 1] as int - '0' as int)
  }

  /** The decimal rendering of a count reads back as that count. */
  lemma {:induction false} DecimalRoundTrip(n: nat)
    ensures ParseDecimal(Decimal(n)) == n
  {
    var s := Decimal(n);
    if n >= 10 {
      DecimalRoundTrip(n / 10);
      assert s[..|s| - 1] == Decimal(n / 10);
    }
  }
}
