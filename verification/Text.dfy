/** String primitives of Go's `strings` and `fmt` packages that the log format relies on.
    A string is the sequence of code points of a valid UTF-8 Go string. */
module Text {

  /** Unicode White_Space, the set `strings.TrimSpace` removes. */
  predicate IsSpace(c: char) {
    var n := c as int;
    9 <= n <= 13 || n == 32 || n == 0x85 || n == 0xA0 || n == 0x1680 || 0x2000 <= n <= 0x200A
    || n == 0x2028 || n == 0x2029 || n == 0x202F || n == 0x205F || n == 0x3000
  }

  function TrimRight(s: string): (r: string)
    ensures r <= s
    ensures r == "" || !IsSpace(r[|r| - 1])
  {
    if s == "" then "" else if IsSpace(s[|s| - 1]) then TrimRight(s[..|s| - 1]) else s
  }

  function TrimLeft(s: string): (r: string)
    ensures |r| <= |s| && r == s[|s| - |r|..]
    ensures r == "" || !IsSpace(r[0])
  {
    if s == "" then "" else if IsSpace(s[0]) then TrimLeft(s[1..]) else s
  }

  function TrimSpace(s: string): string {
    TrimRight(TrimLeft(s))
  }

  /** `strings.IndexByte`: the first position of c, or -1. */
  function IndexOf(s: string, c: char): (k: int)
    ensures k == -1 <==> c !in s
    ensures k != -1 ==> 0 <= k < |s| && s[k] == c && c !in s[..k]
  {
    if s == "" then -1
    else if s[0] == c then 0
    else
      var r := IndexOf(s[1..], c);
      assert s == [s[0]] + s[1..];
      if r == -1 then -1
      else
        assert s[..r + 1] == [s[0]] + s[1..][..r];
        r + 1
  }

  /** The text has `]:` at position k. */
  predicate ClosesAt(s: string, k: int) {
    0 <= k < |s| - 1 && s[k] == ']' && s[k + 1] == ':'
  }

  /** `strings.Index(s, "]:")`. */
  function IndexOfClose(s: string): (k: int)
    ensures k == -1 || ClosesAt(s, k)
    ensures forall j {:trigger ClosesAt(s, j)} :: ClosesAt(s, j) ==> 0 <= k <= j
  {
    IndexOfCloseFrom(s, 0)
  }

  function IndexOfCloseFrom(s: string, from: nat): (k: int)
    requires from <= |s|
    ensures k == -1 || (from <= k && ClosesAt(s, k))
    ensures forall j {:trigger ClosesAt(s, j)} :: from <= j && ClosesAt(s, j) ==> 0 <= k <= j
    decreases |s| - from
  {
    if ClosesAt(s, from) then from
    else if from == |s| then -1
    else IndexOfCloseFrom(s, from + 1)
  }

  ghost predicate HasClose(s: string) {
    exists k :: ClosesAt(s, k)
  }

  /** Bytes of the UTF-8 encoding: Go's `len` on strings counts these. */
  function ByteLen(s: string): (n: nat)
    ensures n >= |s|
  {
    if s == "" then 0 else CharBytes(s[0]) + ByteLen(s[1..])
  }

  function CharBytes(c: char): (n: nat)
    ensures 1 <= n <= 4
  {
    var n := c as int;
    if n < 0x80 then 1 else if n < 0x800 then 2 else if n < 0x10000 then 3 else 4
  }

  // ---------- concatenation ----------

  lemma Assoc(a: string, b: string, c: string)
    ensures (a + b) + c == a + (b + c)
  {
  }

  lemma SplitAt(a: string, k: nat)
    requires k < |a|
    ensures a == a[..k] + ([a[k]] + a[k + 1..])
  {
  }

  lemma Cut(a: string, b: string, c: string)
    ensures var s := a + b + c;
            s[..|a|] == a && s[|a|..|a| + |b|] == b && s[|a| + |b|..] == c
  {
  }

  // ---------- trimming ----------

  /** Trimming on the right never crosses a character that is not a space. */
  lemma {:induction false} TrimRightConcat(head: string, tail: string)
    requires head != "" && !IsSpace(head[|head| - 1])
    ensures TrimRight(head + tail) == head + TrimRight(tail)
  {
    var s := head + tail;
    if tail == "" {
      assert s == head;
    } else {
      assert s[|s| - 1] == tail[|tail| - 1];
      if IsSpace(tail[|tail| - 1]) {
        assert s[..|s| - 1] == head + tail[..|tail| - 1];
        TrimRightConcat(head, tail[..|tail| - 1]);
      }
    }
  }

  /** Trimming stops inside the last part that is not blank. */
  lemma {:induction false} TrimRightTail(head: string, tail: string)
    requires TrimRight(tail) != ""
    ensures TrimRight(head + tail) == head + TrimRight(tail)
  {
    var s := head + tail;
    assert s[|s| - 1] == tail[|tail| - 1];
    if IsSpace(tail[|tail| - 1]) {
      assert s[..|s| - 1] == head + tail[..|tail| - 1];
      TrimRightTail(head, tail[..|tail| - 1]);
    }
  }

  lemma {:induction false} TrimRightBlanks(head: string, blanks: string)
    requires TrimRight(blanks) == ""
    ensures TrimRight(head + blanks) == TrimRight(head)
  {
    var s := head + blanks;
    if blanks == "" {
      assert s == head;
    } else {
      assert s[|s| - 1] == blanks[|blanks| - 1];
      assert s[..|s| - 1] == head + blanks[..|blanks| - 1];
      TrimRightBlanks(head, blanks[..|blanks| - 1]);
    }
  }

  lemma TrimRightIdempotent(s: string)
    ensures TrimRight(TrimRight(s)) == TrimRight(s)
  {
  }

  /** A text that starts with a non-space is only trimmed on the right. */
  lemma TrimSpaceIsTrimRight(s: string)
    requires s != "" && !IsSpace(s[0])
    ensures TrimSpace(s) == TrimRight(s) != ""
  {
    hide IsSpace, TrimRight;
    TrimRightConcat([s[0]], s[1..]);
    SplitAt(s, 0);
    assert s[..0] == "";
  }

  lemma NothingToTrim(s: string)
    requires s != "" && !IsSpace(s[0]) && !IsSpace(s[|s| - 1])
    ensures TrimSpace(s) == s
  {
    hide IsSpace;
    TrimSpaceIsTrimRight(s);
  }

  // ---------- searching ----------

  lemma IndexOfConcat(a: string, c: char, b: string)
    requires c !in a
    ensures IndexOf(a + [c] + b, c) == |a|
  {
    var s := a + [c] + b;
    var k := IndexOf(s, c);
    assert s[|a|] == c && forall i :: 0 <= i < |a| ==> s[i] == a[i];
    assert forall j :: |a| < j <= |s| ==> s[..j][|a|] == s[|a|];
  }

  /** Without a `]:` in the name itself, the first one is the delimiter. */
  lemma IndexOfCloseConcat(a: string, b: string)
    requires !HasClose(a)
    ensures IndexOfClose(a + "]:" + b) == |a|
  {
    var s := a + "]:" + b;
    assert ClosesAt(s, |a|);
    var k := IndexOfClose(s);
    assert forall i :: 0 <= i < |a| ==> s[i] == a[i];
    assert !ClosesAt(a, k);
  }

  /** With one, the first occurrence ends the name too early. */
  lemma IndexOfCloseEarly(a: string, b: string)
    requires HasClose(a)
    ensures 0 <= IndexOfClose(a + "]:" + b) < |a| - 1
    ensures ClosesAt(a, IndexOfClose(a + "]:" + b))
  {
    var s := a + "]:" + b;
    var j :| ClosesAt(a, j);
    assert ClosesAt(s, j);
    var k := IndexOfClose(s);
    assert a[k] == s[k] && a[k + 1] == s[k + 1];
  }

  // ---------- decimal numbers ----------

  predicate IsDigit(c: char) { '0' <= c <= '9' }

  function DigitChar(d: nat): (c: char)
    requires d < 10
    ensures IsDigit(c) && DigitValue(c) == d
  {
    ('0' as int + d) as char
  }

  function DigitValue(c: char): (d: nat)
    requires IsDigit(c)
    ensures d < 10
  {
    c as int - '0' as int
  }

  /** `%d` of a natural number. */
  function Decimal(n: nat): (s: string)
    ensures s != "" && forall c <- s :: IsDigit(c)
  {
    if n < 10 then [DigitChar(n)] else Decimal(n / 10) + [DigitChar(n % 10)]
  }

  /** `%0wd` of a natural number: zeros up to width w, never truncated. */
  function Padded(n: nat, width: nat): (s: string)
    ensures s != "" && forall c <- s :: IsDigit(c)
  {
    var d := Decimal(n);
    if |d| >= width then d else seq(width - |d|, _ => '0') + d
  }

  /** Value of a digit string. */
  function Value(s: string): nat
    requires forall c <- s :: IsDigit(c)
  {
    if s == "" then 0 else Value(s[..|s| - 1]) * 10 + DigitValue(s[|s| - 1])
  }

  /** Number of leading digits. */
  function DigitRun(s: string): (k: nat)
    ensures k <= |s|
    ensures forall c <- s[..k] :: IsDigit(c)
    ensures k < |s| ==> !IsDigit(s[k])
  {
    if s == "" || !IsDigit(s[0]) then 0
    else
      var r := DigitRun(s[1..]);
      assert s[..r + 1] == [s[0]] + s[1..][..r];
      r + 1
  }

  lemma {:induction false} ValueOfDecimal(n: nat)
    ensures Value(Decimal(n)) == n
  {
    if n >= 10 {
      var d := Decimal(n);
      ValueOfDecimal(n / 10);
      assert d[..|d| - 1] == Decimal(n / 10);
    }
  }

  lemma {:induction false} ValueOfZeros(k: nat, s: string)
    requires forall c <- s :: IsDigit(c)
    ensures forall c <- seq(k, _ => '0') + s :: IsDigit(c)
    ensures Value(seq(k, _ => '0') + s) == Value(s)
    decreases k + |s|
  {
    var z := seq(k, _ => '0') + s;
    if s == "" {
      if k > 0 {
        assert z[..|z| - 1] == seq(k - 1, _ => '0') + "";
        ValueOfZeros(k - 1, "");
      }
    } else {
      assert z[..|z| - 1] == seq(k, _ => '0') + s[..|s| - 1];
      ValueOfZeros(k, s[..|s| - 1]);
    }
  }

  /** Zero padding does not change the number read back. */
  lemma ValueOfPadded(n: nat, width: nat)
    ensures Value(Padded(n, width)) == n
  {
    ValueOfDecimal(n);
    var d := Decimal(n);
    if |d| < width {
      ValueOfZeros(width - |d|, d);
    }
  }

  lemma DigitRunConcat(a: string, b: string)
    requires forall c <- a :: IsDigit(c)
    requires b == "" || !IsDigit(b[0])
    ensures DigitRun(a + b) == |a|
  {
    var s := a + b;
    var k := DigitRun(s);
    assert forall i :: 0 <= i < |a| ==> s[i] == a[i] && IsDigit(s[i]);
    assert forall j :: |a| < j <= |s| ==> s[..j][|a|] == s[|a|];
  }
}
