/**
 The guarded Base64 codec of acsengine/provider.go: encode unless already encoded, decode if
 decodable.  The underlying codec is the standard alphabet with padding of section 4 of
 RFC 4648, with the Go decoder's conventions: CR and LF are skipped, padding is required, and
 the unused low bits of a padded group are ignored.
 */
module Base64 {
  import opened Results
  import opened Text

  // ---- the alphabet ----

  function Digit(v: int): Byte
    requires 0 <= v < 64
  {
    if v < 26 then ('A' as int + v) as char
    else if v < 52 then ('a' as int + (v - 26)) as char
    else if v < 62 then ('0' as int + (v - 52)) as char
    else if v == 62 then '+'
    else '/'
  }

  predicate InAlphabet(c: Byte) {
    'A' <= c <= 'Z' || 'a' <= c <= 'z' || '0' <= c <= '9' || c == '+' || c == '/'
  }

  function Value(c: Byte): (v: int)
    requires InAlphabet(c)
    ensures 0 <= v < 64 && Digit(v) == c
  {
    if 'A' <= c <= 'Z' then c as int - 'A' as int
    else if 'a' <= c <= 'z' then c as int - 'a' as int + 26
    else if '0' <= c <= '9' then c as int - '0' as int + 52
    else if c == '+' then 62
    else 63
  }

  lemma ValueDigit(v: int)
    requires 0 <= v < 64
    ensures InAlphabet(Digit(v)) && Value(Digit(v)) == v
  {
  }

  // ---- three octets as four sextets, and back ----

  function Sextet0(x: Byte): (v: int)
    ensures 0 <= v < 64
  {
    x as int / 4
  }

  function Sextet1(x: Byte, y: Byte): (v: int)
    ensures 0 <= v < 64
  {
    x as int % 4 * 16 + y as int / 16
  }

  function Sextet2(y: Byte, z: Byte): (v: int)
    ensures 0 <= v < 64
  {
    y as int % 16 * 4 + z as int / 64
  }

  function Sextet3(z: Byte): (v: int)
    ensures 0 <= v < 64
  {
    z as int % 64
  }

  function Octet0(v0: int, v1: int): Byte
    requires 0 <= v0 < 64 && 0 <= v1 < 64
  {
    (v0 * 4 + v1 / 16) as char
  }

  function Octet1(v1: int, v2: int): Byte
    requires 0 <= v1 < 64 && 0 <= v2 < 64
  {
    (v1 % 16 * 16 + v2 / 4) as char
  }

  function Octet2(v2: int, v3: int): Byte
    requires 0 <= v2 < 64 && 0 <= v3 < 64
  {
    (v2 % 4 * 64 + v3) as char
  }

  lemma OctetsBack(x: Byte, y: Byte, z: Byte)
    ensures Octet0(Sextet0(x), Sextet1(x, y)) == x
    ensures Octet1(Sextet1(x, y), Sextet2(y, z)) == y
    ensures Octet2(Sextet2(y, z), Sextet3(z)) == z
  {
  }

  lemma SextetsBack(v0: int, v1: int, v2: int, v3: int)
    requires 0 <= v0 < 64 && 0 <= v1 < 64 && 0 <= v2 < 64 && 0 <= v3 < 64
    ensures Sextet0(Octet0(v0, v1)) == v0
    ensures Sextet1(Octet0(v0, v1), Octet1(v1, v2)) == v1
    ensures Sextet2(Octet1(v1, v2), Octet2(v2, v3)) == v2
    ensures Sextet3(Octet2(v2, v3)) == v3
  {
  }

  // ---- the standard encoder and decoder ----

  /** A missing octet of the last group counts as zero. */
  const ZERO: Byte := '\0'

  function Encode(b: Bytes): Bytes {
    if b == [] then []
    else if |b| == 1 then [Digit(Sextet0(b[0])), Digit(Sextet1(b[0], ZERO)), '=', '=']
    else if |b| == 2 then [Digit(Sextet0(b[0])), Digit(Sextet1(b[0], b[1])), Digit(Sextet2(b[1], ZERO)), '=']
    else
      [Digit(Sextet0(b[0])), Digit(Sextet1(b[0], b[1])), Digit(Sextet2(b[1], b[2])), Digit(Sextet3(b[2]))]
      + Encode(b[3..])
  }

  predicate IsNewline(c: Byte) {
    c == '\r' || c == '\n'
  }

  function StripNewlines(s: Bytes): (t: Bytes)
    ensures forall c :: c in t ==> c in s && !IsNewline(c)
  {
    if s == [] then []
    else if IsNewline(s[0]) then StripNewlines(s[1..])
    else [s[0]] + StripNewlines(s[1..])
  }

  /** Decodes groups of four bytes; only the last group may be padded. */
  function DecodeGroups(s: Bytes): Option<Bytes> {
    if s == [] then Some([])
    else if |s| < 4 || !InAlphabet(s[0]) || !InAlphabet(s[1]) then None
    else
      var first := Octet0(Value(s[0]), Value(s[1]));
      if InAlphabet(s[2]) then
        var second := Octet1(Value(s[1]), Value(s[2]));
        if InAlphabet(s[3]) then
          var rest := DecodeGroups(s[4..]);
          if rest.None? then None else Some([first, second, Octet2(Value(s[2]), Value(s[3]))] + rest.value)
        else if s[3] == '=' && |s| == 4 then Some([first, second])
        else None
      else if s[2] == '=' && s[3] == '=' && |s| == 4 then Some([first])
      else None
  }

  function Decode(s: Bytes): Option<Bytes> {
    DecodeGroups(StripNewlines(s))
  }

  // ---- the three functions of acsengine/provider.go ----

  predicate IsBase64Encoded(data: Bytes) {
    Decode(data).Some?
  }

  function Base64Encode(data: Bytes): Bytes {
    if IsBase64Encoded(data) then data else Encode(data)
  }

  function Base64Decode(data: Bytes): Bytes {
    if !IsBase64Encoded(data) then data else Decode(data).value
  }

  // ---- the encoder's output ----

  /** Four bytes for every three started, every one from the alphabet or padding at the very end. */
  lemma {:induction false} EncodeShape(b: Bytes)
    ensures |Encode(b)| == 4 * ((|b| + 2) / 3)
    ensures forall i :: 0 <= i < |Encode(b)| ==>
              InAlphabet(Encode(b)[i]) || (Encode(b)[i] == '=' && i >= |Encode(b)| - 2)
  {
    if |b| >= 3 {
      EncodeShape(b[3..]);
      var head := Encode(b)[..4];
      assert Encode(b) == head + Encode(b[3..]);
      forall i | 4 <= i < |Encode(b)|
        ensures InAlphabet(Encode(b)[i]) || (Encode(b)[i] == '=' && i >= |Encode(b)| - 2)
      {
        assert Encode(b)[i] == Encode(b[3..])[i - 4];
      }
    }
  }

  lemma {:induction false} StripIdentity(s: Bytes)
    requires forall c :: c in s ==> !IsNewline(c)
    ensures StripNewlines(s) == s
  {
    if s != [] {
      StripIdentity(s[1..]);
      assert s == [s[0]] + s[1..];
    }
  }

  lemma {:induction false} StripTwice(s: Bytes)
    ensures StripNewlines(StripNewlines(s)) == StripNewlines(s)
    ensures |StripNewlines(s)| <= |s|
  {
    StripIdentity(StripNewlines(s));
    if s != [] {
      StripTwice(s[1..]);
    }
  }

  lemma EncodeStep(b: Bytes)
    requires |b| >= 3
    ensures Encode(b) ==
            [Digit(Sextet0(b[0])), Digit(Sextet1(b[0], b[1])), Digit(Sextet2(b[1], b[2])),
             Digit(Sextet3(b[2]))] + Encode(b[3..])
  {
  }

  lemma DecodeStep(s: Bytes)
    requires |s| >= 4
    requires InAlphabet(s[0]) && InAlphabet(s[1]) && InAlphabet(s[2]) && InAlphabet(s[3])
    ensures DecodeGroups(s).Some? <==> DecodeGroups(s[4..]).Some?
    ensures DecodeGroups(s).Some? ==>
              DecodeGroups(s).value ==
              [Octet0(Value(s[0]), Value(s[1])), Octet1(Value(s[1]), Value(s[2])), Octet2(Value(s[2]), Value(s[3]))]
              + DecodeGroups(s[4..]).value
  {
  }

  /** The four digits of a group hand their sextets back. */
  lemma DigitsBack(x: Byte, y: Byte, z: Byte)
    ensures Value(Digit(Sextet0(x))) == Sextet0(x)
    ensures Value(Digit(Sextet1(x, y))) == Sextet1(x, y)
    ensures Value(Digit(Sextet2(y, z))) == Sextet2(y, z)
    ensures Value(Digit(Sextet3(z))) == Sextet3(z)
  {
    ValueDigit(Sextet0(x));
    ValueDigit(Sextet1(x, y));
    ValueDigit(Sextet2(y, z));
    ValueDigit(Sextet3(z));
  }

  lemma DecodeGroupsEncode1(b: Bytes)
    requires |b| == 1
    ensures DecodeGroups(Encode(b)) == Some(b)
  {
    DigitsBack(b[0], ZERO, ZERO);
    OctetsBack(b[0], ZERO, ZERO);
    assert b == [b[0]];
  }

  lemma DecodeGroupsEncode2(b: Bytes)
    requires |b| == 2
    ensures DecodeGroups(Encode(b)) == Some(b)
  {
    DigitsBack(b[0], b[1], ZERO);
    OctetsBack(b[0], b[1], ZERO);
    assert b == [b[0], b[1]];
  }

  /** The first group of an encoding carries the sextets of the first three octets. */
  lemma EncodedHead(b: Bytes)
    requires |b| >= 3
    ensures var t := Encode(b);
            && |t| >= 4 && t[4..] == Encode(b[3..])
            && InAlphabet(t[0]) && Value(t[0]) == Sextet0(b[0])
            && InAlphabet(t[1]) && Value(t[1]) == Sextet1(b[0], b[1])
            && InAlphabet(t[2]) && Value(t[2]) == Sextet2(b[1], b[2])
            && InAlphabet(t[3]) && Value(t[3]) == Sextet3(b[2])
  {
    EncodeStep(b);
    DigitsBack(b[0], b[1], b[2]);
    ValueDigit(Sextet0(b[0]));
    ValueDigit(Sextet1(b[0], b[1]));
    ValueDigit(Sextet2(b[1], b[2]));
    ValueDigit(Sextet3(b[2]));
  }

  /** A full group decodes to its three octets, followed by what the rest decodes to. */
  lemma DecodeFullGroup(b: Bytes)
    requires |b| >= 3 && DecodeGroups(Encode(b[3..])) == Some(b[3..])
    ensures DecodeGroups(Encode(b)) == Some([b[0], b[1], b[2]] + b[3..])
  {
    EncodedHead(b);
    DecodeStep(Encode(b));
    OctetsBack(b[0], b[1], b[2]);
  }

  lemma DecodeGroupsEncode0()
    ensures DecodeGroups(Encode([])) == Some([])
  {
  }

  lemma {:induction false} DecodeGroupsEncode(b: Bytes)
    ensures DecodeGroups(Encode(b)) == Some(b)
  {
    hide DecodeGroups, Encode;
    if |b| >= 3 {
      DecodeGroupsEncode(b[3..]);
      DecodeFullGroup(b);
      assert b == [b[0], b[1], b[2]] + b[3..];
    } else if |b| == 2 {
      DecodeGroupsEncode2(b);
    } else if |b| == 1 {
      DecodeGroupsEncode1(b);
    } else {
      DecodeGroupsEncode0();
    }
  }

  /** Standard decode inverts standard encode on every byte string. */
  lemma DecodeEncode(b: Bytes)
    ensures Decode(Encode(b)) == Some(b)
    ensures IsBase64Encoded(Encode(b))
  {
    EncodeShape(b);
    StripIdentity(Encode(b));
    DecodeGroupsEncode(b);
  }

  // ---- which strings count as encoded ----

  /** Whole groups over the alphabet, except that the last one or two bytes may be padding. */
  ghost predicate WellPadded(t: Bytes, padding: nat) {
    && padding <= 2
    && |t| % 4 == 0
    && padding <= |t|
    && (forall i :: 0 <= i < |t| - padding ==> InAlphabet(t[i]))
    && (forall i :: |t| - padding <= i < |t| ==> t[i] == '=')
  }

  ghost predicate Padded(t: Bytes) {
    WellPadded(t, 0) || WellPadded(t, 1) || WellPadded(t, 2)
  }

  lemma PaddedStep(t: Bytes)
    requires |t| > 4
    ensures Padded(t) <==>
            InAlphabet(t[0]) && InAlphabet(t[1]) && InAlphabet(t[2]) && InAlphabet(t[3]) && Padded(t[4..])
  {
    var u := t[4..];
    forall padding: nat | padding <= 2
      ensures WellPadded(t, padding) <==>
              InAlphabet(t[0]) && InAlphabet(t[1]) && InAlphabet(t[2]) && InAlphabet(t[3]) && WellPadded(u, padding)
    {
      assert forall i :: 0 <= i < |u| ==> u[i] == t[i + 4];
      assert forall i :: 4 <= i < |t| ==> t[i] == u[i - 4];
    }
  }

  lemma DecodableLastGroup(t: Bytes)
    requires |t| == 4
    ensures DecodeGroups(t).Some? <==> Padded(t)
    ensures DecodeGroups(t).Some? ==> 1 <= |DecodeGroups(t).value| <= 3
  {
    assert t[4..] == [];
  }

  lemma {:induction false} DecodableGroups(t: Bytes)
    ensures DecodeGroups(t).Some? <==> Padded(t)
    ensures DecodeGroups(t).Some? && t != [] ==> 3 * |t| / 4 - 2 <= |DecodeGroups(t).value| < |t|
  {
    if t == [] {
      assert WellPadded(t, 0);
    } else if |t| == 4 {
      DecodableLastGroup(t);
    } else if |t| > 4 {
      DecodableGroups(t[4..]);
      PaddedStep(t);
      if DecodeGroups(t).Some? || Padded(t) {
        DecodeStep(t);
      }
    }
  }

  /** The guard accepts exactly the strings that are well padded once CR and LF are removed. */
  lemma EncodedIff(data: Bytes)
    ensures IsBase64Encoded(data) <==> Padded(StripNewlines(data))
  {
    DecodableGroups(StripNewlines(data));
  }

  lemma {:induction false} StripKeepsOthers(s: Bytes, c: Byte)
    requires c in s && !IsNewline(c)
    ensures c in StripNewlines(s)
  {
    if s[0] != c {
      StripKeepsOthers(s[1..], c);
    }
  }

  lemma ForeignByteNotEncoded(data: Bytes, c: Byte)
    requires c in data && !InAlphabet(c) && c != '=' && !IsNewline(c)
    ensures !IsBase64Encoded(data)
  {
    var t := StripNewlines(data);
    StripKeepsOthers(data, c);
    EncodedIff(data);
    var i :| 0 <= i < |t| && t[i] == c;
  }

  // ---- canonical strings: when re-encoding gives the input back ----

  /** The low bits that a padded last group does not use are zero. */
  predicate ZeroTrailingBits(t: Bytes)
    requires DecodeGroups(t).Some?
  {
    t == [] ||
    if |t| > 4 then ZeroTrailingBits(t[4..])
    else if t[2] == '=' then Value(t[1]) % 16 == 0
    else if t[3] == '=' then Value(t[2]) % 4 == 0
    else true
  }

  /** A full group re-encodes to itself, followed by what the rest re-encodes to. */
  lemma FullGroupBack(t: Bytes)
    requires |t| >= 4 && InAlphabet(t[0]) && InAlphabet(t[1]) && InAlphabet(t[2]) && InAlphabet(t[3])
    requires DecodeGroups(t).Some?
    ensures DecodeGroups(t[4..]).Some? && Encode(DecodeGroups(t).value) == t[..4] + Encode(DecodeGroups(t[4..]).value)
  {
    hide DecodeGroups, Encode, Value, InAlphabet;
    DecodeStep(t);
    var b := DecodeGroups(t).value;
    assert b[3..] == DecodeGroups(t[4..]).value;
    EncodeStep(b);
    SextetsBack(Value(t[0]), Value(t[1]), Value(t[2]), Value(t[3]));
  }

  lemma {:induction false} EncodeDecodeGroups(t: Bytes)
    requires DecodeGroups(t).Some?
    ensures Encode(DecodeGroups(t).value) == t <==> ZeroTrailingBits(t)
    ensures |Encode(DecodeGroups(t).value)| == |t|
  {
    if |t| > 4 || (|t| == 4 && t[3] != '=') {
      FullGroupBack(t);
      EncodeDecodeGroups(t[4..]);
      var e := Encode(DecodeGroups(t).value);
      assert t == t[..4] + t[4..];
      assert e[4..] == Encode(DecodeGroups(t[4..]).value);
      if |t| == 4 {
        assert t[4..] == [];
      }
    } else if |t| == 4 {
      PaddedGroupBack(t);
    }
  }

  lemma PaddedGroupBack(t: Bytes)
    requires |t| == 4 && t[3] == '=' && DecodeGroups(t).Some?
    ensures |Encode(DecodeGroups(t).value)| == 4
    ensures Encode(DecodeGroups(t).value) == t <==> ZeroTrailingBits(t)
  {
    var b := DecodeGroups(t).value;
    var v0, v1 := Value(t[0]), Value(t[1]);
    if t[2] == '=' {
      SextetsBack(v0, v1, 0, 0);
      SpareBits1(v0, v1);
      assert Encode(b) == [t[0], Digit(v1 / 16 * 16), '=', '='];
      ValueDigit(v1 / 16 * 16);
    } else {
      var v2 := Value(t[2]);
      SextetsBack(v0, v1, v2, 0);
      SpareBits2(v1, v2);
      assert Encode(b) == [t[0], t[1], Digit(v2 / 4 * 4), '='];
      ValueDigit(v2 / 4 * 4);
    }
  }

  lemma SpareBits1(v0: int, v1: int)
    requires 0 <= v0 < 64 && 0 <= v1 < 64
    ensures Sextet1(Octet0(v0, v1), ZERO) == v1 / 16 * 16
    ensures v1 / 16 * 16 == v1 <==> v1 % 16 == 0
  {
  }

  lemma SpareBits2(v1: int, v2: int)
    requires 0 <= v1 < 64 && 0 <= v2 < 64
    ensures Sextet2(Octet1(v1, v2), ZERO) == v2 / 4 * 4
    ensures v2 / 4 * 4 == v2 <==> v2 % 4 == 0
  {
  }

  /** Re-encoding what was decoded gives the newline-free input back exactly when its spare bits are zero. */
  lemma EncodeDecodeIff(data: Bytes)
    requires IsBase64Encoded(data)
    ensures Encode(Decode(data).value) == StripNewlines(data) <==> ZeroTrailingBits(StripNewlines(data))
  {
    EncodeDecodeGroups(StripNewlines(data));
  }

  // ---- laws of the guarded codec ----

  lemma GuardedDecodeEncode(data: Bytes)
    ensures Base64Decode(Base64Encode(data)) == Base64Decode(data)
  {
    DecodeEncode(data);
  }

  lemma GuardedEncodeIdempotent(data: Bytes)
    ensures IsBase64Encoded(Base64Encode(data))
    ensures Base64Encode(Base64Encode(data)) == Base64Encode(data)
  {
    DecodeEncode(data);
  }

  /** The round trip through the guards returns its argument exactly when the guard did not take it for encoded data. */
  lemma RoundTripIff(data: Bytes)
    ensures Base64Decode(Base64Encode(data)) == data <==> data == [] || !IsBase64Encoded(data)
  {
    DecodeEncode(data);
    if IsBase64Encoded(data) && data != [] {
      StripTwice(data);
      DecodableGroups(StripNewlines(data));
    }
  }

  const ABCD: Bytes := "abcd"

  /** Four letters of the alphabet are taken for encoded data, and do not come back. */
  lemma RoundTripFails()
    ensures Base64Decode(Base64Encode(ABCD)) != ABCD
  {
    hide DecodeGroups, Encode, StripNewlines, Padded, IsBase64Encoded, Base64Encode, Base64Decode;
    AbcdPadded();
    EncodedIff(ABCD);
    RoundTripIff(ABCD);
  }

  lemma AbcdPadded()
    ensures ABCD != [] && Padded(StripNewlines(ABCD))
  {
    hide StripNewlines;
    StripIdentity(ABCD);
    assert WellPadded(ABCD, 0);
  }

  /** PEM text is safe: a byte such as '-' or ' ' is enough for the round trip. */
  lemma RoundTripForeignByte(data: Bytes, c: Byte)
    requires c in data && !InAlphabet(c) && c != '=' && !IsNewline(c)
    ensures Base64Decode(Base64Encode(data)) == data
  {
    ForeignByteNotEncoded(data, c);
    RoundTripIff(data);
  }
}
