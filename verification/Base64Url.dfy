/** Unpadded base64url, section 5 of RFC 4648, as the accounting tokens use it. */
module Base64Url {
  import opened Basics

  type Byte = x: int | 0 <= x < 256

  function Letter(n: int): char
    requires 0 <= n < 64
  {
    if n < 26 then ('A' as int + n) as char
    else if n < 52 then ('a' as int + n - 26) as char
    else if n < 62 then ('0' as int + n - 52) as char
    else if n == 62 then '-'
    else '_'
  }

  /** The decoder reads the letters of both base64 alphabets. */
  function Sextet(c: char): (n: Option<int>)
    ensures n.Some? ==> 0 <= n.value < 64
  {
    if 'A' <= c <= 'Z' then Some(c as int - 'A' as int)
    else if 'a' <= c <= 'z' then Some(c as int - 'a' as int + 26)
    else if '0' <= c <= '9' then Some(c as int - '0' as int + 52)
    else if c == '-' || c == '+' then Some(62)
    else if c == '_' || c == '/' then Some(63)
    else None
  }

  lemma LetterIsRead(n: int)
    requires 0 <= n < 64
    ensures Sextet(Letter(n)) == Some(n) && Letter(n) != '=' && Letter(n) != '.'
  {
  }

  /** The letters of the last, possibly short, group of at most three bytes. */
  function Group(b: seq<Byte>): (s: string)
    requires 1 <= |b| <= 3
    ensures |s| == |b| + 1
  {
    if |b| == 1 then [Letter(b[0] / 4), Letter(b[0] % 4 * 16)]
    else if |b| == 2 then [Letter(b[0] / 4), Letter(b[0] % 4 * 16 + b[1] / 16), Letter(b[1] % 16 * 4)]
    else [Letter(b[0] / 4), Letter(b[0] % 4 * 16 + b[1] / 16), Letter(b[1] % 16 * 4 + b[2] / 64), Letter(b[2] % 64)]
  }

  function Letters(b: seq<Byte>): string {
    if |b| == 0 then ""
    else if |b| <= 3 then Group(b)
    else Group(b[..3]) + Letters(b[3..])
  }

  function Padding(n: nat): string {
    if n % 3 == 1 then "==" else if n % 3 == 2 then "=" else ""
  }

  /** Base64 with its padding: four characters for every three bytes. */
  function Padded(b: seq<Byte>): string {
    Letters(b) + Padding(|b|)
  }

  function StripPads(s: string): string {
    if s != "" && s[|s| - 1] == '=' then StripPads(s[..|s| - 1]) else s
  }

  function Encode(b: seq<Byte>): string {
    StripPads(Padded(b))
  }

  function Pads(n: nat): string {
    if n == 0 then "" else "=" + Pads(n - 1)
  }

  function Prepend(x: Byte, rest: Option<seq<Byte>>): Option<seq<Byte>> {
    if rest.None? then None else Some([x] + rest.value)
  }

  /** The library's lenient decoder: it skips foreign characters, stops at complete padding and refuses
      an incomplete last group. */
  function Scan(s: string, quad: int, left: int, pads: nat): Option<seq<Byte>>
    requires 0 <= quad < 4 && 0 <= left
    requires quad == 1 ==> left < 64
    requires quad == 2 ==> left < 16
    requires quad == 3 ==> left < 4
    decreases |s|
  {
    if s == "" then (if quad == 0 then Some([]) else None)
    else if s[0] == '=' then
      if quad >= 2 && quad + pads + 1 >= 4 then Some([])
      else Scan(s[1..], quad, left, if quad >= 2 then pads + 1 else pads)
    else
      match Sextet(s[0])
      case None => Scan(s[1..], quad, left, pads)
      case Some(d) =>
        if quad == 0 then Scan(s[1..], 1, d, 0)
        else if quad == 1 then Prepend(left * 4 + d / 16, Scan(s[1..], 2, d % 16, 0))
        else if quad == 2 then Prepend(left * 16 + d / 4, Scan(s[1..], 3, d % 4, 0))
        else Prepend(left * 64 + d, Scan(s[1..], 0, 0, 0))
  }

  /** Text outside ASCII is refused; what is left is padded to whole groups and read. */
  function Decode(s: string): Option<seq<Byte>> {
    if exists i | 0 <= i < |s| :: s[i] as int >= 128 then None
    else Scan(s + Pads(-|s| % 4), 0, 0, 0)
  }

  /** Every character of the letters belongs to the url-safe alphabet. */
  lemma {:induction false} LettersAreLetters(b: seq<Byte>, i: nat)
    requires i < |Letters(b)|
    ensures Sextet(Letters(b)[i]).Some? && Letters(b)[i] != '=' && Letters(b)[i] != '.'
    decreases |b|
  {
    hide Sextet, Letter, Group;
    if |b| > 3 && i >= 4 {
      LettersAreLetters(b[3..], i - 4);
    } else {
      GroupHasLetters(if |b| > 3 then b[..3] else b, i);
    }
  }

  lemma GroupHasLetters(b: seq<Byte>, i: nat)
    requires 1 <= |b| <= 3 && i <= |b|
    ensures Sextet(Group(b)[i]).Some? && Group(b)[i] != '=' && Group(b)[i] != '.'
  {
    hide Letter, Sextet;
    var n :| 0 <= n < 64 && Group(b)[i] == Letter(n);
    LetterIsRead(n);
  }

  lemma {:induction false} LettersFillQuads(b: seq<Byte>)
    ensures |Letters(b)| % 4 == if |b| % 3 == 0 then 0 else |b| % 3 + 1
    decreases |b|
  {
    hide Group;
    if |b| > 3 {
      LettersFillQuads(b[3..]);
      assert |Letters(b)| == 4 + |Letters(b[3..])|;
    }
  }

  lemma StripPadsTo(s: string, pads: string)
    requires s == "" || s[|s| - 1] != '='
    requires pads == "" || pads == "=" || pads == "=="
    ensures StripPads(s + pads) == s
  {
    assert StripPads(s) == s && s + "" == s;
    assert (s + "=")[..|s|] == s && (s + "==")[..|s| + 1] == s + "=";
    assert StripPads(s + "=") == s;
  }

  lemma StripPadsRemovesPadding(b: seq<Byte>)
    ensures Encode(b) == Letters(b)
  {
    hide Letters, StripPads, Sextet;
    var s := Letters(b);
    if s != "" { LettersAreLetters(b, |s| - 1); }
    StripPadsTo(s, Padding(|b|));
  }

  /** Appending minus-the-length modulo four pad characters restores what the encoder stripped. */
  lemma PaddingIsRestored(b: seq<Byte>)
    ensures Encode(b) + Pads(-|Encode(b)| % 4) == Padded(b)
  {
    hide Letters, Encode;
    StripPadsRemovesPadding(b);
    LettersFillQuads(b);
    assert Pads(0) == "" && Pads(1) == "=" + Pads(0) && Pads(2) == "=" + Pads(1);
  }

  /** One letter takes the decoder one position further. */
  lemma ScanLetter(n: int, rest: string, quad: int, left: int)
    requires 0 <= n < 64 && 0 <= quad < 4 && 0 <= left
    requires quad == 1 ==> left < 64
    requires quad == 2 ==> left < 16
    requires quad == 3 ==> left < 4
    ensures Scan([Letter(n)] + rest, quad, left, 0) ==
            if quad == 0 then Scan(rest, 1, n, 0)
            else if quad == 1 then Prepend(left * 4 + n / 16, Scan(rest, 2, n % 16, 0))
            else if quad == 2 then Prepend(left * 16 + n / 4, Scan(rest, 3, n % 4, 0))
            else Prepend(left * 64 + n, Scan(rest, 0, 0, 0))
  {
    hide Letter, Sextet;
    LetterIsRead(n);
    assert ([Letter(n)] + rest)[1..] == rest;
  }

  lemma ScanPad(rest: string, quad: int, left: int)
    requires 2 <= quad < 4 && 0 <= left
    requires quad == 2 ==> left < 16
    requires quad == 3 ==> left < 4
    ensures quad == 3 ==> Scan("=" + rest, quad, left, 0) == Some([])
    ensures quad == 2 ==> Scan("==" + rest, quad, left, 0) == Some([])
  {
    assert ("==" + rest)[1..] == "=" + rest;
  }

  /** A full group of four letters is read back as its three bytes. */
  lemma ScanFull(b: seq<Byte>, rest: string)
    requires |b| == 3
    ensures Scan(Group(b) + rest, 0, 0, 0)
              == Prepend(b[0], Prepend(b[1], Prepend(b[2], Scan(rest, 0, 0, 0))))
  {
    hide Letter, Scan, Prepend;
    var d0, d1, d2, d3 := b[0] / 4, b[0] % 4 * 16 + b[1] / 16, b[1] % 16 * 4 + b[2] / 64, b[2] % 64;
    var s3 := [Letter(d3)] + rest;
    var s2 := [Letter(d2)] + s3;
    var s1 := [Letter(d1)] + s2;
    assert Group(b) + rest == [Letter(d0)] + s1;
    ScanLetter(d0, s1, 0, 0);
    ScanLetter(d1, s2, 1, d0);
    ScanLetter(d2, s3, 2, d1 % 16);
    ScanLetter(d3, rest, 3, d2 % 4);
  }

  /** A short last group is read back up to its padding. */
  lemma ScanLast(b: seq<Byte>)
    requires 1 <= |b| <= 2
    ensures Scan(Group(b) + Padding(|b|), 0, 0, 0) == Some(b)
  {
    hide Letter, Scan;
    var d0 := b[0] / 4;
    if |b| == 1 {
      var d1 := b[0] % 4 * 16;
      var s1 := [Letter(d1)] + "==";
      assert Group(b) + Padding(|b|) == [Letter(d0)] + s1;
      ScanLetter(d0, s1, 0, 0);
      ScanLetter(d1, "==", 1, d0);
      ScanPad("", 2, d1 % 16);
      assert "==" + "" == "==" && [b[0]] + [] == b;
    } else {
      var d1, d2 := b[0] % 4 * 16 + b[1] / 16, b[1] % 16 * 4;
      var s2 := [Letter(d2)] + "=";
      var s1 := [Letter(d1)] + s2;
      assert Group(b) + Padding(|b|) == [Letter(d0)] + s1;
      ScanLetter(d0, s1, 0, 0);
      ScanLetter(d1, s2, 1, d0);
      ScanLetter(d2, "=", 2, d1 % 16);
      ScanPad("", 3, d2 % 4);
      assert "=" + "" == "=" && [b[0]] + ([b[1]] + []) == b;
    }
  }

  lemma {:induction false} ScanUndoesPadded(b: seq<Byte>)
    ensures Scan(Padded(b), 0, 0, 0) == Some(b)
    decreases |b|
  {
    if |b| == 0 {
      assert Padded(b) == "";
    } else if |b| <= 2 {
      ScanLast(b);
    } else {
      ScanFirstGroup(b);
    }
  }

  lemma {:induction false} ScanFirstGroup(b: seq<Byte>)
    requires |b| >= 3
    ensures Scan(Padded(b), 0, 0, 0) == Some(b)
    decreases |b|, 0
  {
    hide Scan, Group;
    var rest := b[3..];
    ScanUndoesPadded(rest);
    ScanFull(b[..3], Padded(rest));
    assert |b| == 3 ==> b[..3] == b;
    assert Letters(b) == Group(b[..3]) + Letters(rest);
    assert Padded(b) == Group(b[..3]) + Padded(rest) by {
      assert Padding(|b|) == Padding(|rest|);
    }
    assert [b[0]] + ([b[1]] + ([b[2]] + rest)) == b;
  }

  /** Decoding undoes encoding, for every byte string. */
  lemma DecodeUndoesEncode(b: seq<Byte>)
    ensures Decode(Encode(b)) == Some(b)
  {
    hide Scan, Padded, Encode;
    EncodeUsesLetters(b);
    PaddingIsRestored(b);
    ScanUndoesPadded(b);
  }

  /** An encoded string holds letters only, so a token can be cut at its first full stop. */
  lemma EncodeUsesLetters(b: seq<Byte>)
    ensures forall i | 0 <= i < |Encode(b)| :: Sextet(Encode(b)[i]).Some? && Encode(b)[i] != '.'
  {
    hide Sextet;
    StripPadsRemovesPadding(b);
    forall i | 0 <= i < |Encode(b)| ensures Sextet(Encode(b)[i]).Some? && Encode(b)[i] != '.' {
      LettersAreLetters(b, i);
    }
  }
}
