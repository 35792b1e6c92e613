/** The UUID and credential checks, with every accepted form written out. */
module UUIDText {
  import opened Results
  import opened Text
  import opened ResourceIDs
  import opened ResourceIDFormat
  import opened ResourceIDText
  import opened Import
  import opened Clusters
  import opened Authentication

  /** Hexadecimal digits, n of them. */
  ghost predicate HexDigits(s: Bytes, n: nat) {
    |s| == n && forall i :: 0 <= i < n ==> HexDigit(s[i])
  }

  ghost predicate HexDigit(c: Byte) {
    exists v :: HexAt(v, c)
  }

  ghost predicate SomeNonzero(s: Bytes) {
    exists i :: 0 <= i < |s| && s[i] != '0'
  }

  lemma HexDigitsListed(s: Bytes)
    ensures AllHex(s) <==> HexDigits(s, |s|)
  {
    hide HexAt, IsHex;
    forall i | 0 <= i < |s|
      ensures IsHex(s[i]) <==> HexDigit(s[i])
    {
      HexListed(s[i]);
    }
  }

  // ---- plain and dashed ----

  /** Thirty-two digits without dashes. */
  lemma PlainForm(t: Bytes)
    requires |t| == 32
    ensures IsProperUUID(t) <==> HexDigits(t, 32) && SomeNonzero(t)
  {
    hide HexAt;
    HexDigitsListed(t);
  }

  function Dashed(a: Bytes, b: Bytes, c: Bytes, d: Bytes, e: Bytes): Bytes {
    a + "-" + b + "-" + c + "-" + d + "-" + e
  }

  ghost predicate Parts(a: Bytes, b: Bytes, c: Bytes, d: Bytes, e: Bytes) {
    HexDigits(a, 8) && HexDigits(b, 4) && HexDigits(c, 4) && HexDigits(d, 4) && HexDigits(e, 12)
  }

  lemma DashedSlices(a: Bytes, b: Bytes, c: Bytes, d: Bytes, e: Bytes)
    requires |a| == 8 && |b| == 4 && |c| == 4 && |d| == 4 && |e| == 12
    ensures var t := Dashed(a, b, c, d, e);
            && |t| == 36 && t[8] == '-' && t[13] == '-' && t[18] == '-' && t[23] == '-'
            && t[..8] == a && t[9..13] == b && t[14..18] == c && t[19..23] == d && t[24..] == e
  {
  }

  lemma DigitsOfDashed(t: Bytes)
    requires |t| == 36
    ensures UUIDDigits(t) == if Canonical(t) then Some(t[..8] + t[9..13] + t[14..18] + t[19..23] + t[24..]) else None
  {
  }

  /** Groups of 8, 4, 4, 4 and 12 digits with dashes between them, not all of them zero. */
  lemma DashedForm(a: Bytes, b: Bytes, c: Bytes, d: Bytes, e: Bytes)
    requires |a| == 8 && |b| == 4 && |c| == 4 && |d| == 4 && |e| == 12
    ensures IsProperUUID(Dashed(a, b, c, d, e)) <==> Parts(a, b, c, d, e) && SomeNonzero(a + b + c + d + e)
  {
    hide HexAt, UUIDDigits, Dashed;
    DashedSlices(a, b, c, d, e);
    DigitsOfDashed(Dashed(a, b, c, d, e));
    HexDigitsListed(a);
    HexDigitsListed(b);
    HexDigitsListed(c);
    HexDigitsListed(d);
    HexDigitsListed(e);
  }

  /** A text of 36 bytes is proper in that form only. */
  lemma OnlyDashed(t: Bytes)
    requires |t| == 36
    ensures IsProperUUID(t) ==>
              t == Dashed(t[..8], t[9..13], t[14..18], t[19..23], t[24..])
              && Parts(t[..8], t[9..13], t[14..18], t[19..23], t[24..])
              && SomeNonzero(t[..8] + t[9..13] + t[14..18] + t[19..23] + t[24..])
  {
    hide UUIDDigits;
    DigitsOfDashed(t);
    if Canonical(t) {
      assert t == Dashed(t[..8], t[9..13], t[14..18], t[19..23], t[24..]);
      DashedForm(t[..8], t[9..13], t[14..18], t[19..23], t[24..]);
    }
  }

  // ---- braces and URNs ----

  /** Braces go around the dashed form. */
  lemma BracedForm(t: Bytes)
    ensures IsProperUUID("{" + t + "}") <==> |t| == 36 && IsProperUUID(t)
  {
    var u: Bytes := "{" + t + "}";
    assert |u| == |t| + 2 && u[0] == '{' && u[|u| - 1] == '}' && u[1..|u| - 1] == t;
  }

  /** The prefix of a URN goes before the plain or the dashed form. */
  lemma URNForm(t: Bytes)
    ensures IsProperUUID("urn:uuid:" + t) <==> (|t| == 32 || |t| == 36) && IsProperUUID(t)
  {
    var u: Bytes := "urn:uuid:" + t;
    assert |u| == |t| + 9 && URN_PREFIX <= u && u[9..] == t;
    assert u[0] == 'u';
  }

  /** There are no other forms. */
  lemma NoOtherForm(t: Bytes)
    requires IsProperUUID(t)
    ensures || |t| == 32 || |t| == 36
            || (|t| == 38 && t == "{" + t[1..37] + "}") || ((|t| == 41 || |t| == 45) && t == "urn:uuid:" + t[9..])
  {
  }

  // ---- credentials ----

  /** The subscription is the ID's, the client the model's; both need a proper UUID, and there must be a secret. */
  lemma AuthorizedPrinted(m: ApiModel, r: ResourceID, order: seq<Bytes>, secret: Bytes)
    requires Printable(r, order)
    ensures Authorized(m, Print(r, order), secret) <==>
              IsProperUUID(r.SubscriptionID) && IsProperUUID(m.Rest.ClientID) && secret != []
  {
    hide Parse, Print, Printable, IsProperUUID;
    ParsePrint(r, order);
  }
}
