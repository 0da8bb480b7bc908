/**
 * The few .NET Framework string operations the key map parser relies on:
 * Char.IsWhiteSpace, String.Trim, String.IsNullOrWhiteSpace, StartsWith
 * (taken as an ordinal, character-by-character comparison), String.Split on one separator character (with and without
 * RemoveEmptyEntries, and with a count of 2), and ASCII case folding.
 */
module FrameworkText {

  /** Char.IsWhiteSpace: the Unicode space separators, the line and paragraph separators and U+0009-U+000D, U+0085. */
  predicate IsWhiteSpace(c: char) {
    var n := c as int;
    (9 <= n <= 13) || n == 0x20 || n == 0x85 || n == 0xA0 || n == 0x1680 ||
    (0x2000 <= n <= 0x200A) || n == 0x2028 || n == 0x2029 || n == 0x202F ||
    n == 0x205F || n == 0x3000
  }

  /** String.IsNullOrWhiteSpace on a non-null string: every character is white space. */
  predicate IsBlank(s: string) {
    forall i :: 0 <= i < |s| ==> IsWhiteSpace(s[i])
  }

  predicate StartsWith(s: string, prefix: string) {
    |prefix| <= |s| && s[..|prefix|] == prefix
  }

  /** The number of leading white-space characters. */
  function LeadingWhite(s: string): (n: nat)
    ensures n <= |s|
    ensures forall i :: 0 <= i < n ==> IsWhiteSpace(s[i])
    ensures n < |s| ==> !IsWhiteSpace(s[n])
    decreases |s|
  {
    if s == [] || !IsWhiteSpace(s[0]) then 0
    else
      var m := LeadingWhite(s[1..]);
      assert forall i :: 1 <= i < m + 1 ==> s[i] == s[1..][i - 1];
      m + 1
  }

  /** The number of trailing white-space characters. */
  function TrailingWhite(s: string): (n: nat)
    ensures n <= |s|
    ensures forall i :: |s| - n <= i < |s| ==> IsWhiteSpace(s[i])
    ensures n < |s| ==> !IsWhiteSpace(s[|s| - n - 1])
    decreases |s|
  {
    if s == [] || !IsWhiteSpace(s[|s| - 1]) then 0
    else
      var m := TrailingWhite(s[..|s| - 1]);
      assert forall i :: |s| - 1 - m <= i < |s| - 1 ==> s[i] == s[..|s| - 1][i];
      m + 1
  }

  /** Every character of s outside s[i..j] is white space. */
  predicate WhiteOutside(s: string, i: nat, j: nat) {
    forall k :: 0 <= k < |s| && !(i <= k < j) ==> IsWhiteSpace(s[k])
  }

  /**
   * String.Trim: the infix of s between its leading and its trailing white
   * space; it neither starts nor ends with white space.
   */
  function Trim(s: string): (r: string)
    ensures |r| <= |s|
    ensures r == [] || (!IsWhiteSpace(r[0]) && !IsWhiteSpace(r[|r| - 1]))
  {
    var a := LeadingWhite(s);
    if a == |s| then []
    else
      var n := TrailingWhite(s);
      s[a..|s| - n]
  }

  /** Trim keeps an infix of s and cuts off only white space on either side. */
  lemma TrimCuts(s: string) returns (i: nat)
    ensures i + |Trim(s)| <= |s| && Trim(s) == s[i..i + |Trim(s)|]
    ensures WhiteOutside(s, i, i + |Trim(s)|)
  {
    i := LeadingWhite(s);
    if i < |s| {
      var n := TrailingWhite(s);
      assert |Trim(s)| == |s| - n - i;
    }
  }

  /** A string with no white space at either end is its own trim. */
  lemma TrimOfTrimmed(s: string)
    requires s == [] || (!IsWhiteSpace(s[0]) && !IsWhiteSpace(s[|s| - 1]))
    ensures Trim(s) == s
  {
    if s != [] {
      assert LeadingWhite(s) == 0 && TrailingWhite(s) == 0;
      assert s[0..|s|] == s;
    }
  }

  /** Trimming twice is trimming once. */
  lemma TrimIdempotent(s: string)
    ensures Trim(Trim(s)) == Trim(s)
  {
    TrimOfTrimmed(Trim(s));
  }

  /** A string is blank exactly when its trim is empty. */
  lemma BlankIffTrimEmpty(s: string)
    ensures IsBlank(s) <==> Trim(s) == []
  {
    var r := Trim(s);
    var i := TrimCuts(s);
    if r != [] {
      assert s[i] == r[0];
    }
  }

  /** Every character of s is different from c. */
  predicate Free(s: string, c: char) {
    forall i :: 0 <= i < |s| ==> s[i] != c
  }

  /** The index of the first c in s, or |s| when there is none. */
  function IndexOf(s: string, c: char): (k: nat)
    ensures k <= |s| && forall i :: 0 <= i < k ==> s[i] != c
    ensures k < |s| ==> s[k] == c
    decreases |s|
  {
    if s == [] then 0
    else if s[0] == c then 0
    else
      var m := IndexOf(s[1..], c);
      assert forall i :: 1 <= i < m + 1 ==> s[i] == s[1..][i - 1];
      m + 1
  }

  /** The number of leading c characters. */
  function LeadingRun(s: string, c: char): (n: nat)
    ensures n <= |s|
    ensures forall i :: 0 <= i < n ==> s[i] == c
    ensures n < |s| ==> s[n] != c
    decreases |s|
  {
    if s == [] || s[0] != c then 0
    else
      var m := LeadingRun(s[1..], c);
      assert forall i :: 1 <= i < m + 1 ==> s[i] == s[1..][i - 1];
      m + 1
  }

  /** n copies of c. */
  function Repeat(c: char, n: nat): (r: string)
    ensures |r| == n && forall i :: 0 <= i < n ==> r[i] == c
  {
    if n == 0 then [] else [c] + Repeat(c, n - 1)
  }

  /** A string made of c only is n copies of c. */
  lemma AllSame(s: string, c: char)
    requires forall i :: 0 <= i < |s| ==> s[i] == c
    ensures s == Repeat(c, |s|)
  {
  }

  /** String.Split(c) without options: the pieces between the separators, empty ones included. */
  function SplitAll(s: string, c: char): (parts: seq<string>)
    ensures |parts| >= 1
    ensures forall i :: 0 <= i < |parts| ==> Free(parts[i], c)
    decreases |s|
  {
    var k := IndexOf(s, c);
    if k == |s| then [s]
    else [s[..k]] + SplitAll(s[k + 1..], c)
  }

  /** The pieces glued back together with the separator. */
  function Join(parts: seq<string>, c: char): string
    requires |parts| >= 1
  {
    if |parts| == 1 then parts[0] else parts[0] + [c] + Join(parts[1..], c)
  }

  /** Pieces without the separator, joined with it, keep out every character they keep out. */
  lemma {:induction false} JoinFree(parts: seq<string>, c: char, d: char)
    requires |parts| >= 1 && c != d
    requires forall i :: 0 <= i < |parts| ==> Free(parts[i], d)
    ensures Free(Join(parts, c), d)
    decreases |parts|
  {
    if |parts| > 1 {
      JoinFree(parts[1..], c, d);
    }
  }

  /** A join starts with its first piece. */
  lemma {:induction false} JoinStarts(parts: seq<string>, c: char)
    requires |parts| >= 1
    ensures StartsWith(Join(parts, c), parts[0])
  {
    if |parts| > 1 {
      var s := Join(parts, c);
      assert s == parts[0] + ([c] + Join(parts[1..], c));
      assert s[..|parts[0]|] == parts[0];
    }
  }

  /** A separator after a piece without one ends the first piece of the split. */
  lemma SplitAllAfterPiece(head: string, rest: string, c: char)
    requires Free(head, c)
    ensures SplitAll(head + [c] + rest, c) == [head] + SplitAll(rest, c)
  {
    var more := [c] + rest;
    var s := head + more;
    assert head + [c] + rest == s;
    IndexOfPrefix(head, more, c);
    assert s[..|head|] == head;
    assert s[|head| + 1..] == rest;
  }

  /** Joining pieces without the separator and splitting again gives back the pieces. */
  lemma {:induction false} SplitAllJoin(parts: seq<string>, c: char)
    requires |parts| >= 1
    requires forall i :: 0 <= i < |parts| ==> Free(parts[i], c)
    ensures SplitAll(Join(parts, c), c) == parts
    decreases |parts|
  {
    if |parts| == 1 {
      SplitAllFree(parts[0], c);
    } else {
      var rest := parts[1..];
      assert Free(parts[0], c);
      SplitAllAfterPiece(parts[0], Join(rest, c), c);
      SplitAllJoin(rest, c);
      assert parts == [parts[0]] + rest;
    }
  }

  /** Splitting and joining again gives back the string. */
  lemma {:induction false} JoinSplitAll(s: string, c: char)
    ensures Join(SplitAll(s, c), c) == s
    decreases |s|
  {
    var k := IndexOf(s, c);
    if k < |s| {
      var head, tail := s[..k], s[k + 1..];
      var rest := SplitAll(tail, c);
      var parts := [head] + rest;
      assert SplitAll(s, c) == parts;
      assert parts[0] == head && parts[1..] == rest;
      calc {
        Join(parts, c);
        head + [c] + Join(rest, c);
        { JoinSplitAll(tail, c); }
        head + [c] + tail;
        { assert s == s[..k] + [s[k]] + s[k + 1..]; }
        s;
      }
    }
  }

  /** A string without the separator is a single piece. */
  lemma SplitAllFree(s: string, c: char)
    requires Free(s, c)
    ensures SplitAll(s, c) == [s]
  {
  }

  /** The non-empty strings of a sequence, in order. */
  function NonEmpty(parts: seq<string>): (r: seq<string>)
    ensures |r| <= |parts|
    ensures forall i :: 0 <= i < |r| ==> r[i] != []
    ensures forall p :: p in parts && p != [] ==> p in r
    ensures forall p :: p in r ==> p in parts
  {
    if parts == [] then []
    else
      var rest := NonEmpty(parts[1..]);
      assert forall p :: p in parts ==> p == parts[0] || p in parts[1..];
      if parts[0] == [] then rest else [parts[0]] + rest
  }

  /** Keeping the non-empty strings of non-empty strings keeps them all. */
  lemma {:induction false} NonEmptyOfNonEmpty(parts: seq<string>)
    requires forall i :: 0 <= i < |parts| ==> parts[i] != []
    ensures NonEmpty(parts) == parts
  {
    if parts != [] {
      NonEmptyOfNonEmpty(parts[1..]);
      assert parts == [parts[0]] + parts[1..];
    }
  }

  /**
   * String.Split(c, RemoveEmptyEntries): the non-empty pieces. (The
   * framework returns no pieces for the empty string and the string itself
   * when it holds no separator; both agree with this definition.)
   */
  function SplitNonEmpty(s: string, c: char): (parts: seq<string>)
    ensures forall i :: 0 <= i < |parts| ==> parts[i] != [] && Free(parts[i], c)
    ensures forall p :: p in parts <==> p in SplitAll(s, c) && p != []
    ensures s != [] && Free(s, c) ==> parts == [s]
  {
    var all := SplitAll(s, c);
    if s != [] && Free(s, c) then
      SplitAllFree(s, c);
      NonEmpty(all)
    else
      var r := NonEmpty(all);
      assert forall i :: 0 <= i < |r| ==> r[i] in all;
      r
  }

  /**
   * String.Split(new[] { c }, 2, RemoveEmptyEntries) as the framework's
   * InternalSplitOmitEmptyEntries computes it: the empty string gives no
   * piece and a string with no separator comes back whole; otherwise the
   * separators before the first piece are skipped, the first piece ends at
   * the next separator, the run of separators after it is skipped and the
   * rest, separators included, is the second piece.
   */
  function SplitTwo(s: string, c: char): (parts: seq<string>)
    ensures |parts| <= 2
    ensures forall i :: 0 <= i < |parts| ==> parts[i] != []
    ensures s != [] && Free(s, c) ==> parts == [s]
    ensures |parts| == 2 ==> Free(parts[0], c) && parts[1][0] != c
  {
    if s == [] then []
    else if Free(s, c) then [s]
    else SplitPieces(s[LeadingRun(s, c)..], c)
  }

  /** The pieces of a string that does not start with the separator. */
  function SplitPieces(rest: string, c: char): (parts: seq<string>)
    ensures |parts| <= 2
    ensures forall i :: 0 <= i < |parts| ==> parts[i] != []
    ensures |parts| == 2 ==> Free(parts[0], c) && parts[1][0] != c
  {
    var k := IndexOf(rest, c);
    if k == |rest| then (if rest == [] then [] else [rest])
    else if k == 0 then [] // not reached: rest does not start with c
    else
      var tail := rest[k..];
      var value := tail[LeadingRun(tail, c)..];
      if value == [] then [rest[..k]] else [rest[..k], value]
  }

  /** Two pieces put back together: leading separators, the key, a run of separators, the value. */
  lemma SplitTwoShape(s: string, c: char) returns (m: nat, n: nat)
    requires |SplitTwo(s, c)| == 2
    ensures n >= 1 && s == Repeat(c, m) + SplitTwo(s, c)[0] + Repeat(c, n) + SplitTwo(s, c)[1]
  {
    m := LeadingRun(s, c);
    var rest := s[m..];
    var parts := SplitTwo(s, c);
    assert parts == SplitPieces(rest, c);
    n := PiecesShape(rest, c);
    LeadShape(s, c);
    var lead, key, run, value := Repeat(c, m), parts[0], Repeat(c, n), parts[1];
    calc {
      s;
      lead + rest;
      lead + (key + run + value);
      { ConcatAssoc4(lead, key, run, value); }
      lead + key + run + value;
    }
  }

  lemma ConcatAssoc4(a: string, b: string, c: string, d: string)
    ensures a + (b + c + d) == a + b + c + d
  {
  }

  lemma LeadShape(s: string, c: char)
    ensures s == Repeat(c, LeadingRun(s, c)) + s[LeadingRun(s, c)..]
  {
    var lead := LeadingRun(s, c);
    AllSame(s[..lead], c);
    assert s == s[..lead] + s[lead..];
  }

  lemma PiecesShape(rest: string, c: char) returns (n: nat)
    requires |SplitPieces(rest, c)| == 2
    ensures n >= 1 && rest == SplitPieces(rest, c)[0] + Repeat(c, n) + SplitPieces(rest, c)[1]
  {
    var k := IndexOf(rest, c);
    var tail := rest[k..];
    n := LeadingRun(tail, c);
    assert tail[0] == c;
    AllSame(tail[..n], c);
    assert tail == tail[..n] + tail[n..];
    assert rest == rest[..k] + tail;
  }

  /** A key, a run of separators and a value that does not start with the separator split back into the key and the value. */
  lemma SplitTwoOfPair(key: string, n: nat, value: string, c: char)
    requires key != [] && Free(key, c) && n >= 1
    requires value != [] && value[0] != c
    ensures SplitTwo(key + Repeat(c, n) + value, c) == [key, value]
  {
    var s := key + Repeat(c, n) + value;
    assert s[|key|] == c;
    assert LeadingRun(s, c) == 0 by { assert s[0] == key[0]; }
    assert s[0..] == s;
    assert SplitTwo(s, c) == SplitPieces(s, c);
    var more := Repeat(c, n) + value;
    assert s == key + more;
    IndexOfPrefix(key, more, c);
    assert s[|key|..] == more;
    assert s[..|key|] == key;
    LeadingRunPrefix(n, value, c);
    assert more[n..] == value;
  }

  lemma IndexOfPrefix(key: string, more: string, c: char)
    requires Free(key, c) && more != [] && more[0] == c
    ensures IndexOf(key + more, c) == |key|
  {
    var s := key + more;
    var k := IndexOf(s, c);
    assert forall i :: 0 <= i < |key| ==> s[i] == key[i];
    assert s[|key|] == c;
  }

  lemma LeadingRunPrefix(n: nat, value: string, c: char)
    requires value != [] && value[0] != c
    ensures LeadingRun(Repeat(c, n) + value, c) == n
  {
    var t := Repeat(c, n) + value;
    var run := LeadingRun(t, c);
    assert forall i :: 0 <= i < n ==> t[i] == c;
    assert t[n] == value[0];
  }

  /** ASCII upper-casing; every other character is its own upper case. */
  function AsciiUpper(c: char): (u: char)
    ensures 'a' <= c <= 'z' ==> u as int == c as int - 32
    ensures !('a' <= c <= 'z') ==> u == c
  {
    if 'a' <= c <= 'z' then (c as int - 32) as char else c
  }

  /** Ordinal comparison ignoring ASCII case. */
  predicate EqualsIgnoreCase(a: string, b: string) {
    |a| == |b| && forall i :: 0 <= i < |a| ==> AsciiUpper(a[i]) == AsciiUpper(b[i])
  }

  predicate IsAsciiDigit(c: char) {
    '0' <= c <= '9'
  }

  predicate AllDigits(s: string) {
    forall i :: 0 <= i < |s| ==> IsAsciiDigit(s[i])
  }

  /** The value of a string of decimal digits. */
  function DigitsValue(s: string): (v: nat)
    requires AllDigits(s)
    decreases |s|
  {
    if s == [] then 0
    else
      assert IsAsciiDigit(s[|s| - 1]);
      DigitsValue(s[..|s| - 1]) * 10 + (s[|s| - 1] as int - '0' as int)
  }

  /** The decimal digits of n, without leading zeros. */
  function Decimal(n: nat): (s: string)
    ensures s != [] && AllDigits(s)
  {
    var d := ('0' as int + n % 10) as char;
    if n < 10 then [d] else Decimal(n / 10) + [d]
  }

  /** The digits of n have value n. */
  lemma {:induction false} DigitsValueOfDecimal(n: nat)
    ensures DigitsValue(Decimal(n)) == n
  {
    var s := Decimal(n);
    if n < 10 {
      assert s[..0] == [];
    } else {
      assert s[..|s| - 1] == Decimal(n / 10);
      DigitsValueOfDecimal(n / 10);
    }
  }
}
