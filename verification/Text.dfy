/** String measures the services use: white-space trimming and encoded length. */
module Text {

  /** White space in the sense of Go's unicode.IsSpace. */
  predicate IsSpace(c: char) {
    var u := c as int;
    || 9 <= u <= 13 || u == 0x20 || u == 0x85 || u == 0xA0 || u == 0x1680 || 0x2000 <= u <= 0x200A
    || u == 0x2028 || u == 0x2029 || u == 0x202F || u == 0x205F || u == 0x3000
  }

  function TrimLeft(s: string): string {
    if s != "" && IsSpace(s[0]) then TrimLeft(s[1..]) else s
  }

  function TrimRight(s: string): string {
    if s != "" && IsSpace(s[|s| - 1]) then TrimRight(s[..|s| - 1]) else s
  }

  function Trim(s: string): string { TrimRight(TrimLeft(s)) }

  /** Bytes of the UTF-8 encoding. */
  function ByteLength(s: string): nat {
    if s == "" then 0
    else
      var u := s[|s| - 1] as int;
      ByteLength(s[..|s| - 1]) + if u < 0x80 then 1 else if u < 0x800 then 2 else if u < 0x10000 then 3 else 4
  }

  ghost predicate AllSpace(s: string) { forall i :: 0 <= i < |s| ==> IsSpace(s[i]) }

  /** What is left starts and ends with a character that is no white space, or is empty. */
  ghost predicate Bare(s: string) { s != "" ==> !IsSpace(s[0]) && !IsSpace(s[|s| - 1]) }

  lemma {:induction false} LeftStrips(s: string) returns (a: string)
    ensures s == a + TrimLeft(s) && AllSpace(a) && (TrimLeft(s) != "" ==> !IsSpace(TrimLeft(s)[0]))
  {
    if s != "" && IsSpace(s[0]) {
      var rest := LeftStrips(s[1..]);
      a := [s[0]] + rest;
      assert s == [s[0]] + s[1..];
    } else {
      a := "";
    }
  }

  lemma {:induction false} RightStrips(s: string) returns (b: string)
    ensures s == TrimRight(s) + b && AllSpace(b) && (TrimRight(s) != "" ==> !IsSpace(TrimRight(s)[|TrimRight(s)| - 1]))
  {
    if s != "" && IsSpace(s[|s| - 1]) {
      var rest := RightStrips(s[..|s| - 1]);
      b := rest + [s[|s| - 1]];
      assert s == s[..|s| - 1] + [s[|s| - 1]];
    } else {
      b := "";
    }
  }

  /** Trimming removes white space at both ends and nothing else. */
  lemma TrimStrips(s: string) returns (a: string, b: string)
    ensures s == a + Trim(s) + b && AllSpace(a) && AllSpace(b) && Bare(Trim(s))
  {
    a := LeftStrips(s);
    b := RightStrips(TrimLeft(s));
    assert s == a + (Trim(s) + b);
    if Trim(s) != "" {
      assert TrimLeft(s)[0] == Trim(s)[0];
    }
  }

  /** Characters of the basic Latin block take one byte, others up to four. */
  lemma {:induction false} ByteLengthBounds(s: string)
    ensures |s| <= ByteLength(s) <= 4 * |s|
    ensures ByteLength(s) == |s| <==> forall i :: 0 <= i < |s| ==> s[i] as int < 0x80
  {
    if s != "" {
      ByteLengthBounds(s[..|s| - 1]);
    }
  }
}
