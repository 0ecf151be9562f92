/** What Go's encoding/json does to a string on its way out and back in: every byte that is not part of
    well-formed UTF-8 (section 4 of RFC 3629) comes back as the replacement character U+FFFD. */
module Utf8 {
  import opened Prelude

  /** The bytes of U+FFFD. */
  const REPLACEMENT: string := "\U{ef}\U{bf}\U{bd}"

  predicate Between(c: char, lo: int, hi: int) {
    lo <= c as int <= hi
  }

  predicate Tail(c: char) {
    Between(c, 0x80, 0xbf)
  }

  /** The second byte a lead byte of three or four admits. */
  predicate Second(lead: char, c: char) {
    match lead as int
    case 0xe0 => Between(c, 0xa0, 0xbf)
    case 0xed => Between(c, 0x80, 0x9f)
    case 0xf0 => Between(c, 0x90, 0xbf)
    case 0xf4 => Between(c, 0x80, 0x8f)
    case _ => Tail(c)
  }

  /** How many bytes the character at the front takes, 0 if the first byte begins none. */
  function RuneSize(s: string): (n: nat)
    requires s != ""
    ensures n <= 4 && n <= |s|
  {
    if Between(s[0], 0, 0x7f) then 1
    else if Between(s[0], 0xc2, 0xdf) && |s| >= 2 && Tail(s[1]) then 2
    else if Between(s[0], 0xe0, 0xef) && |s| >= 3 && Second(s[0], s[1]) && Tail(s[2]) then 3
    else if Between(s[0], 0xf0, 0xf4) && |s| >= 4 && Second(s[0], s[1]) && Tail(s[2]) && Tail(s[3]) then 4
    else 0
  }

  /** The string decoded from the encoding of s. */
  function Transcoded(s: string): (r: string)
    ensures |r| >= |s|
    decreases |s|
  {
    if s == "" then ""
    else
      var n := RuneSize(s);
      if n == 0 then REPLACEMENT + Transcoded(s[1..]) else s[..n] + Transcoded(s[n..])
  }

  predicate ValidUtf8(s: string)
    decreases |s|
  {
    s == "" || (RuneSize(s) > 0 && ValidUtf8(s[RuneSize(s)..]))
  }

  /** A string survives exactly when it is well-formed. */
  lemma {:induction false} TranscodedFixes(s: string)
    ensures Transcoded(s) == s <==> ValidUtf8(s)
    decreases |s|
  {
    if s != "" {
      var n := RuneSize(s);
      if n > 0 {
        TranscodedFixes(s[n..]);
        assert s == s[..n] + s[n..];
        assert Transcoded(s)[n..] == Transcoded(s[n..]);
      } else {
        assert |Transcoded(s)| > |s|;
      }
    }
  }

  lemma FrontDecides(s: string, n: nat, t: string)
    requires s != "" && n == RuneSize(s) && n > 0
    ensures s[..n] + t != "" && RuneSize(s[..n] + t) == n && (s[..n] + t)[n..] == t
  {
  }

  /** What comes back is well-formed, so a second trip changes nothing. */
  lemma {:induction false} TranscodedIsValid(s: string)
    ensures ValidUtf8(Transcoded(s)) && Transcoded(Transcoded(s)) == Transcoded(s)
    decreases |s|
  {
    if s != "" {
      var n := RuneSize(s);
      if n == 0 {
        var t := Transcoded(s[1..]);
        TranscodedIsValid(s[1..]);
        assert RuneSize(REPLACEMENT + t) == 3 && (REPLACEMENT + t)[3..] == t;
      } else {
        TranscodedIsValid(s[n..]);
        FrontDecides(s, n, Transcoded(s[n..]));
      }
    }
    TranscodedFixes(Transcoded(s));
  }

  lemma {:induction false} AsciiIsValid(s: string)
    requires forall c :: c in s ==> c as int <= 0x7f
    ensures ValidUtf8(s)
    decreases |s|
  {
    if s != "" {
      assert s[0] in s && RuneSize(s) == 1;
      assert forall c :: c in s[1..] ==> c in s;
      AsciiIsValid(s[1..]);
    }
  }

  /** A name in another encoding: the byte E9 is an e acute in Latin-1 and begins nothing here. */
  lemma LatinNameIsNot()
    ensures !ValidUtf8("Jos\U{e9}") && Transcoded("Jos\U{e9}") == "Jos\U{ef}\U{bf}\U{bd}"
  {
    var s := "Jos\U{e9}";
    assert RuneSize(s) == 1 && s[1..] == "os\U{e9}";
    assert RuneSize(s[1..]) == 1 && s[1..][1..] == "s\U{e9}";
    assert RuneSize(s[1..][1..]) == 1 && s[1..][1..][1..] == "\U{e9}";
    assert RuneSize("\U{e9}") == 0;
    assert Transcoded("\U{e9}") == REPLACEMENT + "";
  }

  // ---- well-formed is: a row of encoded characters ----

  /** The numbers of characters: all up to 10FFFF but the surrogates. */
  predicate Scalar(c: int) {
    0 <= c < 0xd800 || 0xe000 <= c < 0x11_0000
  }

  /** Section 3 of RFC 3629: seven bits in one byte, eleven in two, sixteen in three, twenty-one in four. */
  function Encoded(c: int): (s: string)
    requires Scalar(c)
    ensures 1 <= |s| <= 4
  {
    if c < 0x80 then [c as char]
    else if c < 0x800 then [(0xc0 + c / 64) as char, (0x80 + c % 64) as char]
    else if c < 0x1_0000 then [(0xe0 + c / 4096) as char, (0x80 + c / 64 % 64) as char, (0x80 + c % 64) as char]
    else [(0xf0 + c / 262144) as char, (0x80 + c / 4096 % 64) as char, (0x80 + c / 64 % 64) as char, (0x80 + c % 64) as char]
  }

  /** An encoded character is taken whole, whatever follows it. */
  lemma EncodedIsTaken(c: int, rest: string)
    requires Scalar(c)
    ensures RuneSize(Encoded(c) + rest) == |Encoded(c)|
  {
    var e := Encoded(c);
    assert forall i :: 0 <= i < |e| ==> (e + rest)[i] == e[i];
  }

  /** And what is taken is an encoded character. */
  lemma TakenIsEncoded(s: string) returns (c: int)
    requires s != "" && RuneSize(s) > 0
    ensures Scalar(c) && s[..RuneSize(s)] == Encoded(c)
  {
    var n := RuneSize(s);
    var a := s[0] as int;
    if n == 1 {
      c := a;
    } else if n == 2 {
      c := (a - 0xc0) * 64 + (s[1] as int - 0x80);
    } else if n == 3 {
      c := ThreeBytes(a - 0xe0, s[1] as int - 0x80, s[2] as int - 0x80);
    } else {
      c := FourBytes(a - 0xf0, s[1] as int - 0x80, s[2] as int - 0x80, s[3] as int - 0x80);
    }
    assert |s[..n]| == |Encoded(c)| && forall i :: 0 <= i < n ==> s[..n][i] == Encoded(c)[i];
  }

  lemma ThreeBytes(a: int, b: int, d: int) returns (c: int)
    requires 0 <= a < 16 && 0 <= b < 64 && 0 <= d < 64
    ensures c == a * 4096 + b * 64 + d && c / 4096 == a && c / 64 % 64 == b && c % 64 == d
  {
    c := a * 4096 + b * 64 + d;
    assert c / 64 == a * 64 + b;
  }

  lemma FourBytes(z: int, a: int, b: int, d: int) returns (c: int)
    requires 0 <= z < 8 && 0 <= a < 64 && 0 <= b < 64 && 0 <= d < 64
    ensures c == z * 262144 + a * 4096 + b * 64 + d && c / 262144 == z && c / 4096 % 64 == a && c / 64 % 64 == b && c % 64 == d
  {
    c := z * 262144 + a * 4096 + b * 64 + d;
    assert c / 64 == z * 4096 + a * 64 + b && c / 4096 == z * 64 + a;
  }

  function AllEncoded(cs: seq<int>): string
    requires forall i :: 0 <= i < |cs| ==> Scalar(cs[i])
  {
    if cs == [] then "" else Encoded(cs[0]) + AllEncoded(cs[1..])
  }

  /** The encodings of characters in a row are well-formed. */
  lemma {:induction false} EncodingsAreValid(cs: seq<int>)
    requires forall i :: 0 <= i < |cs| ==> Scalar(cs[i])
    ensures ValidUtf8(AllEncoded(cs))
    decreases |cs|
  {
    hide RuneSize, Encoded;
    if cs != [] {
      var e, rest := Encoded(cs[0]), AllEncoded(cs[1..]);
      EncodingsAreValid(cs[1..]);
      EncodedIsTaken(cs[0], rest);
      assert (e + rest)[|e|..] == rest;
    }
  }

  /** And nothing else is. */
  lemma {:induction false} ValidIsEncodings(s: string) returns (cs: seq<int>)
    requires ValidUtf8(s)
    ensures (forall i :: 0 <= i < |cs| ==> Scalar(cs[i])) && s == AllEncoded(cs)
    decreases |s|
  {
    hide RuneSize, Encoded;
    cs := [];
    if s != "" {
      var n := RuneSize(s);
      var c := TakenIsEncoded(s);
      var rest := ValidIsEncodings(s[n..]);
      cs := [c] + rest;
      assert cs[1..] == rest && s == s[..n] + s[n..];
    }
  }
}
