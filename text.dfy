/** Text helpers that the alert composer is built from: Python's
    "\n".join(...), its inverse (splitting on newlines), and the
    "{:d}" rendering of a non-negative integer together with its parser. */
module Text {

  /** True when s holds no newline character. */
  predicate NoNewline(s: string)
  {
    forall i :: 0 <= i < |s| ==> s[i] != '\n'
  }

  /** Sum of the lengths of the given lines. */
  function TotalLength(lines: seq<string>): nat
  {
    if lines == [] then 0 else |lines[0]| + TotalLength(lines[1..])
  }

  /** "\n".join(lines): the lines with one newline between neighbours. */
  function JoinLines(lines: seq<string>): string
  {
    if |lines| == 0 then ""
    else if |lines| == 1 then lines[0]
    else lines[0] + "\n" + JoinLines(lines[1..])
  }

  /** s.split("\n"): the maximal newline-free pieces of s, in order. */
  function SplitLines(s: string): (parts: seq<string>)
    ensures |parts| >= 1
  {
    if s == [] then [""]
    else
      var rest := SplitLines(s[1..]);
      if s[0] == '\n' then [""] + rest else [[s[0]] + rest[0]] + rest[1..]
  }

  /** The joined text is exactly as long as its lines plus one newline
      between each pair of neighbours. */
  lemma {:induction false} JoinLinesLength(lines: seq<string>)
    requires |lines| >= 1
    ensures |JoinLines(lines)| == TotalLength(lines) + |lines| - 1
  {
    if |lines| > 1 {
      JoinLinesLength(lines[1..]);
    }
  }

  /** Joining three lines puts a newline between each neighbouring pair. */
  lemma JoinThreeLines(a: string, b: string, c: string)
    ensures JoinLines([a, b, c]) == a + "\n" + b + "\n" + c
  {
    assert [a, b, c][1..] == [b, c];
    assert [b, c][1..] == [c];
    assert JoinLines([b, c]) == b + "\n" + c;
  }

  /** True when s begins with head. */
  predicate StartsWith(s: string, head: string)
  {
    |head| <= |s| && s[..|head|] == head
  }

  /** True when s ends with tail. */
  predicate EndsWith(s: string, tail: string)
  {
    |tail| <= |s| && s[|s| - |tail|..] == tail
  }

  /** A text begins with any beginning of its beginning. */
  lemma StartsWithConcat(head: string, rest: string, shorter: string)
    requires StartsWith(head, shorter)
    ensures StartsWith(head + rest, shorter)
  {
    assert (head + rest)[..|shorter|] == head[..|shorter|];
  }

  /** Three joined lines begin with the first and a newline and end with a
      newline and the last. */
  lemma JoinThreeFrame(a: string, b: string, c: string)
    ensures StartsWith(JoinLines([a, b, c]), a + "\n")
    ensures EndsWith(JoinLines([a, b, c]), "\n" + c)
  {
    JoinThreeLines(a, b, c);
    assert a + "\n" + b + "\n" + c == (a + "\n") + (b + "\n" + c);
    assert a + "\n" + b + "\n" + c == (a + "\n" + b) + ("\n" + c);
  }

  /** A newline-free text is a single line. */
  lemma {:induction false} SplitLinesSingle(s: string)
    requires NoNewline(s)
    ensures SplitLines(s) == [s]
  {
    if s != [] {
      SplitLinesSingle(s[1..]);
      assert [s[0]] + s[1..] == s;
    }
  }

  /** Splitting distributes over a newline: the pieces of a + "\n" + b are
      the pieces of a followed by the pieces of b. */
  lemma {:induction false} SplitLinesConcat(a: string, b: string)
    ensures SplitLines(a + "\n" + b) == SplitLines(a) + SplitLines(b)
  {
    if a == [] {
      assert a + "\n" + b == "\n" + b;
      assert ("\n" + b)[1..] == b;
    } else {
      assert (a + "\n" + b)[1..] == a[1..] + "\n" + b;
      SplitLinesConcat(a[1..], b);
    }
  }

  /** The lines of a three-part text whose first and last parts are single
      lines: the first part, the middle part's lines, the last part. */
  lemma SplitThreeParts(first: string, middle: string, last: string)
    requires NoNewline(first) && NoNewline(last)
    ensures SplitLines(first + "\n" + middle + "\n" + last)
         == [first] + SplitLines(middle) + [last]
  {
    assert first + "\n" + middle + "\n" + last == first + "\n" + (middle + "\n" + last);
    SplitLinesConcat(first, middle + "\n" + last);
    SplitLinesConcat(middle, last);
    SplitLinesSingle(first);
    SplitLinesSingle(last);
  }

  /** Joining newline-free lines and splitting again gives the lines back. */
  lemma {:induction false} SplitJoinLines(lines: seq<string>)
    requires |lines| >= 1
    requires forall k :: 0 <= k < |lines| ==> NoNewline(lines[k])
    ensures SplitLines(JoinLines(lines)) == lines
  {
    SplitLinesSingle(lines[0]);
    if |lines| > 1 {
      SplitLinesConcat(lines[0], JoinLines(lines[1..]));
      SplitJoinLines(lines[1..]);
      assert [lines[0]] + lines[1..] == lines;
    }
  }

  /** The character for the decimal digit d. */
  function DigitChar(d: nat): (c: char)
    requires d < 10
    ensures '0' <= c <= '9' && c as int - '0' as int == d
  {
    "0123456789"[d]
  }

  /** True when every character of s is a decimal digit. */
  predicate AllDigits(s: string)
  {
    forall i :: 0 <= i < |s| ==> '0' <= s[i] <= '9'
  }

  /** "{:d}".format(n) for a non-negative n: canonical decimal, no sign,
      no leading zero. */
  function Decimal(n: nat): (s: string)
    ensures |s| >= 1 && AllDigits(s)
    ensures (s[0] == '0') == (n == 0)
  {
    if n < 10 then [DigitChar(n)] else Decimal(n / 10) + [DigitChar(n % 10)]
  }

  /** The value of a string of decimal digits, most significant first. */
  function ParseDecimal(s: string): nat
    requires AllDigits(s)
  {
    if s == [] then 0
    else ParseDecimal(s[..|s| - 1]) * 10 + (s[|s| - 1] as int - '0' as int)
  }

  /** Reading back the rendered count gives the count. */
  lemma {:induction false} ParseDecimalInverse(n: nat)
    ensures ParseDecimal(Decimal(n)) == n
  {
    var s := Decimal(n);
    if n >= 10 {
      assert s[..|s| - 1] == Decimal(n / 10);
      ParseDecimalInverse(n / 10);
    }
  }
}
