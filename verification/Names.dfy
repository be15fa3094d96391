/** The two name checks, byte by byte, with the exact complaint (server/handler.go). */
module Names {
  import opened Messages
  import opened LineReader

  datatype Verdict = Accepted | Empty | HasSpaces | TooLong | NotPrintable

  predicate Blank(b: byte) { b == 0x20 || b == 0x09 || b == CR || b == LF }

  predicate Visible(b: byte) { 0x21 <= b <= 0x7E }

  function AsText(name: seq<byte>): string { seq(|name|, i requires 0 <= i < |name| => name[i] as char) }

  method ValidateName(name: seq<byte>) returns (v: Verdict)
    ensures v == Accepted <==> ValidName(AsText(name))
    ensures v == Empty <==> forall b <- name :: Blank(b)
    ensures v == HasSpaces <==> 0x20 in name && exists b <- name :: !Blank(b)
    ensures v == TooLong <==> 0x20 !in name && |name| > 32 && exists b <- name :: !Blank(b)
  {
    SameCheck(name);
    if |name| == 0 { return Empty; }
    var i := 0;
    while i < |name| && Blank(name[i])
      invariant i <= |name| && forall j :: 0 <= j < i ==> Blank(name[j])
    {
      i := i + 1;
    }
    if i == |name| {
      assert Blank(name[0]) && !Visible(name[0]);
      return Empty;
    }
    assert name[i] in name;
    for j := 0 to |name|
      invariant 0x20 !in name[..j]
    {
      assert name[..j + 1] == name[..j] + [name[j]];
      if name[j] == 0x20 { return HasSpaces; }
    }
    assert name[..|name|] == name;
    if |name| > 32 { return TooLong; }
    for j := 0 to |name|
      invariant forall k :: 0 <= k < j ==> Visible(name[k])
    {
      if name[j] < 0x21 || name[j] > 0x7E { return NotPrintable; }
    }
    return Accepted;
  }

  method ValidateRoomName(name: seq<byte>) returns (v: Verdict)
    ensures v == Accepted <==> ValidName(AsText(name))
    ensures v == Empty <==> name == []
    ensures v == TooLong <==> |name| > 32
    ensures v != HasSpaces
  {
    SameCheck(name);
    if |name| == 0 { return Empty; }
    if |name| > 32 { return TooLong; }
    for j := 0 to |name|
      invariant forall k :: 0 <= k < j ==> Visible(name[k])
    {
      if name[j] < 0x21 || name[j] > 0x7E { return NotPrintable; }
    }
    return Accepted;
  }

  lemma SameCheck(name: seq<byte>)
    ensures ValidName(AsText(name)) <==> name != [] && |name| <= 32 && forall k :: 0 <= k < |name| ==> Visible(name[k])
  {
    var text := AsText(name);
    forall k | 0 <= k < |name| ensures text[k] in text && text[k] as int == name[k] { }
  }
}
