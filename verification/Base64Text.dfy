/**
 What the encoder's output looks like, in terms of the alphabet of section 4 of RFC 4648 written out, with the
 examples of its section 10.
 */
module Base64Text {
  import opened Results
  import opened Text
  import opened Base64

  const FIGURES: string := "0123456789+/"

  const ALPHABET: string := UPPER + LOWER + FIGURES

  // ---- the alphabet ----

  lemma UpperListed(v: int)
    requires 0 <= v < 26
    ensures |UPPER| == 26 && UPPER[v] == Digit(v)
  {
  }

  lemma LowerListed(v: int)
    requires 26 <= v < 52
    ensures |LOWER| == 26 && LOWER[v - 26] == Digit(v)
  {
  }

  lemma FiguresListed(v: int)
    requires 52 <= v < 64
    ensures |FIGURES| == 12 && FIGURES[v - 52] == Digit(v)
  {
  }

  /** Every sextet is written as the byte at its place in the alphabet. */
  lemma DigitListed(v: int)
    requires 0 <= v < 64
    ensures |ALPHABET| == 64 && ALPHABET[v] == Digit(v)
  {
    hide Digit;
    assert |UPPER| == |LOWER| == 26 && |FIGURES| == 12;
    if v < 26 {
      UpperListed(v);
    } else if v < 52 {
      LowerListed(v);
    } else {
      FiguresListed(v);
    }
  }

  /** No byte has two places. */
  lemma PlaceUnique(i: int, v: int)
    requires 0 <= i < 64 && 0 <= v < 64 && |ALPHABET| == 64 && ALPHABET[i] == Digit(v)
    ensures i == v
  {
    hide Digit, Value;
    DigitListed(i);
    ValueDigit(i);
    ValueDigit(v);
  }

  /** Where a byte stands in the alphabet. */
  ghost predicate At(i: int, c: Byte) {
    0 <= i < 64 && |ALPHABET| == 64 && ALPHABET[i] == c
  }

  /** The bytes of the alphabet are those that the decoder accepts. */
  lemma AlphabetListed(c: Byte)
    ensures InAlphabet(c) <==> exists i :: At(i, c)
  {
    if InAlphabet(c) {
      DigitListed(Value(c));
      assert At(Value(c), c);
    }
    if i :| At(i, c) {
      DigitListed(i);
      ValueDigit(i);
    }
  }

  // ---- what an encoding spells ----

  lemma SextetNumber(x: Byte, y: Byte, z: Byte)
    ensures ((Sextet0(x) * 64 + Sextet1(x, y)) * 64 + Sextet2(y, z)) * 64 + Sextet3(z)
            == (x as int * 256 + y as int) * 256 + z as int
  {
  }

  /** Four digits of the alphabet, read to the base 64, are three octets read to the base 256. */
  lemma GroupSpells(b: Bytes, i0: int, i1: int, i2: int, i3: int)
    requires |b| >= 3 && |Encode(b)| >= 4
    requires At(i0, Encode(b)[0]) && At(i1, Encode(b)[1]) && At(i2, Encode(b)[2]) && At(i3, Encode(b)[3])
    ensures ((i0 * 64 + i1) * 64 + i2) * 64 + i3 == (b[0] as int * 256 + b[1] as int) * 256 + b[2] as int
  {
    hide Encode, Digit, ALPHABET;
    EncodeStep(b);
    PlaceUnique(i0, Sextet0(b[0]));
    PlaceUnique(i1, Sextet1(b[0], b[1]));
    PlaceUnique(i2, Sextet2(b[1], b[2]));
    PlaceUnique(i3, Sextet3(b[2]));
    SextetNumber(b[0], b[1], b[2]);
  }

  /** Two octets left over take three digits, of which the last two bits are zero, and one byte of padding. */
  lemma PairSpells(b: Bytes, i0: int, i1: int, i2: int)
    requires |b| == 2 && |Encode(b)| == 4
    requires At(i0, Encode(b)[0]) && At(i1, Encode(b)[1]) && At(i2, Encode(b)[2])
    ensures (i0 * 64 + i1) * 64 + i2 == (b[0] as int * 256 + b[1] as int) * 4 && Encode(b)[3] == '='
  {
    hide Digit, ALPHABET;
    PlaceUnique(i0, Sextet0(b[0]));
    PlaceUnique(i1, Sextet1(b[0], b[1]));
    PlaceUnique(i2, Sextet2(b[1], ZERO));
    SextetNumber(b[0], b[1], ZERO);
  }

  /** One octet left over takes two digits, of which the last four bits are zero, and two bytes of padding. */
  lemma SingleSpells(b: Bytes, i0: int, i1: int)
    requires |b| == 1 && |Encode(b)| == 4 && At(i0, Encode(b)[0]) && At(i1, Encode(b)[1])
    ensures i0 * 64 + i1 == b[0] as int * 16 && Encode(b)[2] == Encode(b)[3] == '='
  {
    hide Digit, ALPHABET;
    PlaceUnique(i0, Sextet0(b[0]));
    PlaceUnique(i1, Sextet1(b[0], ZERO));
    SextetNumber(b[0], ZERO, ZERO);
  }

  /** After k groups the encoding is that of the octets after 3k. */
  lemma {:induction false} EncodeAfter(b: Bytes, k: nat)
    requires 3 * k <= |b|
    ensures 4 * k <= |Encode(b)| && Encode(b)[4 * k..] == Encode(b[3 * k..])
  {
    if k > 0 {
      EncodeAfter(b[3..], k - 1);
      EncodeStep(b);
      assert Encode(b)[4..] == Encode(b[3..]);
      assert b[3..][3 * (k - 1)..] == b[3 * k..];
      assert Encode(b)[4..][4 * (k - 1)..] == Encode(b)[4 * k..];
    } else {
      assert b[0..] == b;
    }
  }

  /** So every group of the encoding spells its three octets. */
  lemma EncodeSpells(b: Bytes, k: nat, i0: int, i1: int, i2: int, i3: int)
    requires 3 * k + 3 <= |b| && 4 * k + 4 <= |Encode(b)|
    requires At(i0, Encode(b)[4 * k]) && At(i1, Encode(b)[4 * k + 1])
    requires At(i2, Encode(b)[4 * k + 2]) && At(i3, Encode(b)[4 * k + 3])
    ensures ((i0 * 64 + i1) * 64 + i2) * 64 + i3
            == (b[3 * k] as int * 256 + b[3 * k + 1] as int) * 256 + b[3 * k + 2] as int
  {
    hide Encode, At;
    EncodeAfter(b, k);
    GroupSpells(b[3 * k..], i0, i1, i2, i3);
  }

  // ---- section 10 of RFC 4648 ----

  lemma ShortVectors()
    ensures Encode("") == ""
    ensures Encode("f") == "Zg=="
    ensures Encode("fo") == "Zm8="
  {
  }

  lemma GroupVectors()
    ensures Encode("foo") == "Zm9v" && Encode("bar") == "YmFy"
  {
  }

  lemma LeftoverVectors()
    ensures Encode("b") == "Yg==" && Encode("ba") == "YmE="
  {
  }

  /** The encoding of text that starts with three octets. */
  lemma Continued(head: Bytes, tail: Bytes)
    requires |head| == 3
    ensures Encode(head + tail) == Encode(head) + Encode(tail)
  {
    assert (head + tail)[3..] == tail && head[3..] == [];
    EncodeStep(head + tail);
    EncodeStep(head);
  }

  lemma TestVectors()
    ensures Encode("") == ""
    ensures Encode("f") == "Zg=="
    ensures Encode("fo") == "Zm8="
    ensures Encode("foo") == "Zm9v"
    ensures Encode("foob") == "Zm9vYg=="
    ensures Encode("fooba") == "Zm9vYmE="
    ensures Encode("foobar") == "Zm9vYmFy"
  {
    hide Encode;
    ShortVectors();
    GroupVectors();
    LeftoverVectors();
    Continued("foo", "b");
    Continued("foo", "ba");
    Continued("foo", "bar");
    assert "foo" + "b" == "foob" && "foo" + "ba" == "fooba" && "foo" + "bar" == "foobar";
  }

  /** The dashes that PEM text starts with. */
  lemma PemStart()
    ensures Encode("---") == "LS0t"
  {
  }

  // ---- what the decoder lets pass ----

  /** The unused bits of a padded group are ignored. */
  lemma SpareBitsIgnored(t: Bytes)
    requires t == "Zg==" || t == "Zh=="
    ensures Decode(t) == Some("f")
  {
    hide DecodeGroups, StripNewlines;
    StripIdentity(t);
    LastGroupDecodes(t);
  }

  lemma LastGroupDecodes(t: Bytes)
    requires t == "Zg==" || t == "Zh=="
    ensures DecodeGroups(t) == Some("f")
  {
    hide StripNewlines;
    assert |t| == 4 && t[0] == 'Z' && t[2] == t[3] == '=';
  }

  lemma StripEmpty()
    ensures StripNewlines([]) == []
  {
  }

  lemma StripStep(s: Bytes)
    requires s != []
    ensures StripNewlines(s) == (if IsNewline(s[0]) then [] else [s[0]]) + StripNewlines(s[1..])
  {
  }

  lemma {:induction false} StripConcat(a: Bytes, b: Bytes)
    ensures StripNewlines(a + b) == StripNewlines(a) + StripNewlines(b)
  {
    hide StripNewlines;
    if a == [] {
      StripEmpty();
      assert a + b == b;
    } else {
      StripConcat(a[1..], b);
      StripStep(a);
      StripStep(a + b);
      assert (a + b)[0] == a[0] && (a + b)[1..] == a[1..] + b;
    }
  }

  /** CR and LF may stand anywhere. */
  lemma NewlinesIgnored(a: Bytes, b: Bytes, c: Byte)
    requires c == '\r' || c == '\n'
    ensures Decode(a + [c] + b) == Decode(a + b)
  {
    hide StripNewlines, DecodeGroups;
    StripConcat(a, b);
    StripConcat(a + [c], b);
    StripConcat(a, [c]);
    StripStep([c]);
    StripEmpty();
    assert [c][1..] == [] && StripNewlines([c]) == [];
    assert StripNewlines(a + [c] + b) == StripNewlines(a + b);
  }

  /** No other byte outside the alphabet may, but for padding. */
  lemma OthersRefused(data: Bytes, c: Byte)
    requires c in data && c != '=' && c != '\r' && c != '\n' && forall i :: !At(i, c)
    ensures Decode(data).None?
  {
    AlphabetListed(c);
    ForeignByteNotEncoded(data, c);
  }
}
