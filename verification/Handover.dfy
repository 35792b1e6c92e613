/** What the vault holds after the certificates have been written, and what the references then mean. */
module Handover {
  import opened Results
  import opened Text
  import opened Base64
  import opened ResourceIDs
  import opened ResourceIDFormat
  import opened Certificates

  // ---- key vaults ----

  const VAULTS: Bytes := "vaults"

  datatype VaultKey = VaultKey(resourceGroup: Bytes, name: Bytes)

  type Vault = map<Bytes, Bytes>
  type Vaults = map<VaultKey, Vault>

  /** The vault that an ID designates. */
  function VaultOf(vaultID: Bytes): Option<VaultKey> {
    var id := Parse(vaultID);
    if id.Success? && VAULTS in id.value.Path then Some(VaultKey(id.value.ResourceGroup, id.value.Path[VAULTS]))
    else None
  }

  /** The secret that a reference designates. */
  function Dereference(vaults: Vaults, reference: Bytes): Option<Bytes> {
    var id, vault := Parse(reference), VaultOf(reference);
    if id.Success? && vault.Some? && vault.value in vaults && SECRETS in id.value.Path
       && id.value.Path[SECRETS] in vaults[vault.value]
    then Some(vaults[vault.value][id.value.Path[SECRETS]])
    else None
  }

  // ---- the writes ----

  const FIXED_SLOTS: seq<Slot> :=
    [CaCrt, CaKey, APIServerCrt, APIServerKey, ClientCrt, ClientKey, KubeConfigCrt, KubeConfigKey,
     EtcdServerCrt, EtcdServerKey, EtcdClientCrt, EtcdClientKey]

  /** The order in which the profile is written to the vault: 12 fixed fields, the peer certificates, the peer keys. */
  function WriteOrder(c: Certs): (slots: seq<Slot>)
    ensures forall i :: 0 <= i < |slots| ==> HasSlot(c, slots[i])
  {
    FIXED_SLOTS
    + seq(|c.EtcdPeerCertificates|, (i: nat) => PeerCrt(i))
    + seq(|c.EtcdPeerPrivateKeys|, (i: nat) => PeerKey(i))
  }

  function SlotSecret(s: Slot, dnsPrefix: Bytes): Bytes {
    SecretName(CertificateName(s), dnsPrefix)
  }

  /** The vault after the given slots of a profile have been written, in order. */
  function Written(v: Vault, c: Certs, dnsPrefix: Bytes, slots: seq<Slot>): Vault
    requires forall i :: 0 <= i < |slots| ==> HasSlot(c, slots[i])
  {
    if slots == [] then v
    else
      var last := slots[|slots| - 1];
      Written(v, c, dnsPrefix, slots[..|slots| - 1])[SlotSecret(last, dnsPrefix) := Base64Encode(Field(c, last))]
  }

  lemma WrittenStep(v: Vault, c: Certs, dnsPrefix: Bytes, slots: seq<Slot>, n: nat)
    requires forall i :: 0 <= i < |slots| ==> HasSlot(c, slots[i])
    requires n < |slots|
    ensures Written(v, c, dnsPrefix, slots[..n + 1]) ==
            Written(v, c, dnsPrefix, slots[..n])[SlotSecret(slots[n], dnsPrefix) := Base64Encode(Field(c, slots[n]))]
  {
    hide SlotSecret, Base64Encode, Field, HasSlot;
    assert slots[..n + 1][..n] == slots[..n];
  }

  /** Every written slot is found under its own name: no write overwrites that of another slot. */
  lemma {:induction false} WrittenLookup(v: Vault, c: Certs, dnsPrefix: Bytes, slots: seq<Slot>, n: nat)
    requires forall i :: 0 <= i < |slots| ==> HasSlot(c, slots[i])
    requires n < |slots|
    ensures var w := Written(v, c, dnsPrefix, slots);
            SlotSecret(slots[n], dnsPrefix) in w
              && w[SlotSecret(slots[n], dnsPrefix)] == Base64Encode(Field(c, slots[n]))
  {
    var last := slots[|slots| - 1];
    if n < |slots| - 1 {
      WrittenLookup(v, c, dnsPrefix, slots[..|slots| - 1], n);
      if SlotSecret(last, dnsPrefix) == SlotSecret(slots[n], dnsPrefix) {
        SecretNamesInjective(dnsPrefix, last, dnsPrefix, slots[n]);
      }
    }
  }

  /** Nothing else changes, in particular no secret of a cluster with another prefix. */
  lemma {:induction false} WrittenElsewhere(v: Vault, c: Certs, dnsPrefix: Bytes, slots: seq<Slot>, name: Bytes)
    requires forall i :: 0 <= i < |slots| ==> HasSlot(c, slots[i])
    requires forall i :: 0 <= i < |slots| ==> name != SlotSecret(slots[i], dnsPrefix)
    ensures var w := Written(v, c, dnsPrefix, slots);
            (name in w <==> name in v) && (name in v ==> w[name] == v[name])
  {
    if slots != [] {
      WrittenElsewhere(v, c, dnsPrefix, slots[..|slots| - 1], name);
    }
  }

  lemma OtherClusterUntouched(v: Vault, c: Certs, dnsPrefix: Bytes, slots: seq<Slot>, other: Bytes, s: Slot)
    requires forall i :: 0 <= i < |slots| ==> HasSlot(c, slots[i])
    requires other != dnsPrefix
    ensures var w, name := Written(v, c, dnsPrefix, slots), SlotSecret(s, other);
            (name in w <==> name in v) && (name in v ==> w[name] == v[name])
  {
    forall i | 0 <= i < |slots|
      ensures SlotSecret(s, other) != SlotSecret(slots[i], dnsPrefix)
    {
      if SlotSecret(s, other) == SlotSecret(slots[i], dnsPrefix) {
        SecretNamesInjective(other, s, dnsPrefix, slots[i]);
      }
    }
    WrittenElsewhere(v, c, dnsPrefix, slots, SlotSecret(s, other));
  }

  // ---- the references ----

  function Reference(s: Slot, vaultID: Bytes, dnsPrefix: Bytes): Bytes {
    VaultSecretRefName(CertificateName(s), vaultID, dnsPrefix)
  }

  /** The profile with references in place; only as many peer keys are replaced as there are peer certificates. */
  function References(c: Certs, vaultID: Bytes, dnsPrefix: Bytes): Certs {
    Certs(Reference(CaCrt, vaultID, dnsPrefix), Reference(CaKey, vaultID, dnsPrefix),
          Reference(APIServerCrt, vaultID, dnsPrefix), Reference(APIServerKey, vaultID, dnsPrefix),
          Reference(ClientCrt, vaultID, dnsPrefix), Reference(ClientKey, vaultID, dnsPrefix),
          Reference(KubeConfigCrt, vaultID, dnsPrefix), Reference(KubeConfigKey, vaultID, dnsPrefix),
          Reference(EtcdServerCrt, vaultID, dnsPrefix), Reference(EtcdServerKey, vaultID, dnsPrefix),
          Reference(EtcdClientCrt, vaultID, dnsPrefix), Reference(EtcdClientKey, vaultID, dnsPrefix),
          seq(|c.EtcdPeerCertificates|, (i: nat) => Reference(PeerCrt(i), vaultID, dnsPrefix)),
          seq(|c.EtcdPeerPrivateKeys|, i requires 0 <= i < |c.EtcdPeerPrivateKeys| =>
            if i < |c.EtcdPeerCertificates| then Reference(PeerKey(i), vaultID, dnsPrefix)
            else c.EtcdPeerPrivateKeys[i]))
  }

  ghost predicate AllReferences(c: Certs, vaultID: Bytes, dnsPrefix: Bytes) {
    forall s :: HasSlot(c, s) ==> Field(c, s) == Reference(s, vaultID, dnsPrefix)
  }

  lemma FieldOfReferences(c: Certs, vaultID: Bytes, dnsPrefix: Bytes, s: Slot)
    requires HasSlot(c, s)
    ensures HasSlot(References(c, vaultID, dnsPrefix), s)
    ensures Field(References(c, vaultID, dnsPrefix), s) ==
            if s.PeerKey? && s.i >= |c.EtcdPeerCertificates| then Field(c, s) else Reference(s, vaultID, dnsPrefix)
  {
  }

  /** A profile is determined by its fields and the lengths of its peer arrays. */
  lemma ProfileExtensional(a: Certs, b: Certs)
    requires forall s :: HasSlot(a, s) <==> HasSlot(b, s)
    requires forall s :: HasSlot(a, s) ==> Field(a, s) == Field(b, s)
    ensures a == b
  {
    assert Field(a, CaCrt) == Field(b, CaCrt);
    assert Field(a, CaKey) == Field(b, CaKey);
    assert Field(a, APIServerCrt) == Field(b, APIServerCrt);
    assert Field(a, APIServerKey) == Field(b, APIServerKey);
    assert Field(a, ClientCrt) == Field(b, ClientCrt);
    assert Field(a, ClientKey) == Field(b, ClientKey);
    assert Field(a, KubeConfigCrt) == Field(b, KubeConfigCrt);
    assert Field(a, KubeConfigKey) == Field(b, KubeConfigKey);
    assert Field(a, EtcdServerCrt) == Field(b, EtcdServerCrt);
    assert Field(a, EtcdServerKey) == Field(b, EtcdServerKey);
    assert Field(a, EtcdClientCrt) == Field(b, EtcdClientCrt);
    assert Field(a, EtcdClientKey) == Field(b, EtcdClientKey);
    assert HasSlot(a, PeerCrt(|a.EtcdPeerCertificates|)) <==> HasSlot(b, PeerCrt(|a.EtcdPeerCertificates|));
    assert HasSlot(a, PeerCrt(|b.EtcdPeerCertificates|)) <==> HasSlot(b, PeerCrt(|b.EtcdPeerCertificates|));
    assert HasSlot(a, PeerKey(|a.EtcdPeerPrivateKeys|)) <==> HasSlot(b, PeerKey(|a.EtcdPeerPrivateKeys|));
    assert HasSlot(a, PeerKey(|b.EtcdPeerPrivateKeys|)) <==> HasSlot(b, PeerKey(|b.EtcdPeerPrivateKeys|));
    forall i | 0 <= i < |a.EtcdPeerCertificates|
      ensures a.EtcdPeerCertificates[i] == b.EtcdPeerCertificates[i]
    {
      assert HasSlot(a, PeerCrt(i)) && Field(a, PeerCrt(i)) == Field(b, PeerCrt(i));
    }
    forall i | 0 <= i < |a.EtcdPeerPrivateKeys|
      ensures a.EtcdPeerPrivateKeys[i] == b.EtcdPeerPrivateKeys[i]
    {
      assert HasSlot(a, PeerKey(i)) && Field(a, PeerKey(i)) == Field(b, PeerKey(i));
    }
  }

  /**
   Putting references in place makes a profile of references exactly when the keys beyond the last
   peer certificate, which are skipped, are references already.
   */
  lemma ReferencesReplaceAllIff(c: Certs, vaultID: Bytes, dnsPrefix: Bytes)
    ensures AllReferences(References(c, vaultID, dnsPrefix), vaultID, dnsPrefix) <==>
            forall i :: |c.EtcdPeerCertificates| <= i < |c.EtcdPeerPrivateKeys| ==>
              c.EtcdPeerPrivateKeys[i] == Reference(PeerKey(i), vaultID, dnsPrefix)
  {
    var r := References(c, vaultID, dnsPrefix);
    if AllReferences(r, vaultID, dnsPrefix) {
      forall i | |c.EtcdPeerCertificates| <= i < |c.EtcdPeerPrivateKeys|
        ensures c.EtcdPeerPrivateKeys[i] == Reference(PeerKey(i), vaultID, dnsPrefix)
      {
        assert HasSlot(r, PeerKey(i));
        FieldOfReferences(c, vaultID, dnsPrefix, PeerKey(i));
      }
    }
    if forall i :: |c.EtcdPeerCertificates| <= i < |c.EtcdPeerPrivateKeys| ==>
         c.EtcdPeerPrivateKeys[i] == Reference(PeerKey(i), vaultID, dnsPrefix) {
      forall s | HasSlot(r, s)
        ensures Field(r, s) == Reference(s, vaultID, dnsPrefix)
      {
        assert HasSlot(c, s);
        FieldOfReferences(c, vaultID, dnsPrefix, s);
      }
    }
  }

  /** Of two peer keys, with one peer certificate, the second stays as it is. */
  lemma SurplusKeyStays(c: Certs, vaultID: Bytes, dnsPrefix: Bytes, secret: Bytes)
    requires |c.EtcdPeerCertificates| == 1 && |c.EtcdPeerPrivateKeys| == 2 && c.EtcdPeerPrivateKeys[1] == secret
    requires secret != Reference(PeerKey(1), vaultID, dnsPrefix)
    ensures References(c, vaultID, dnsPrefix).EtcdPeerPrivateKeys == [Reference(PeerKey(0), vaultID, dnsPrefix), secret]
    ensures !AllReferences(References(c, vaultID, dnsPrefix), vaultID, dnsPrefix)
  {
    hide Reference;
    ReferencesReplaceAllIff(c, vaultID, dnsPrefix);
  }

  /** A profile that already holds references is left unchanged. */
  lemma ReferencesIdempotent(c: Certs, vaultID: Bytes, dnsPrefix: Bytes)
    requires AllReferences(c, vaultID, dnsPrefix)
    ensures References(c, vaultID, dnsPrefix) == c
  {
    var r := References(c, vaultID, dnsPrefix);
    forall s
      ensures HasSlot(c, s) <==> HasSlot(r, s)
      ensures HasSlot(c, s) ==> Field(c, s) == Field(r, s)
    {
      if HasSlot(c, s) { FieldOfReferences(c, vaultID, dnsPrefix, s); }
    }
    ProfileExtensional(c, r);
  }

  // ---- dereferencing ----

  lemma SlotSecretPlain(s: Slot, dnsPrefix: Bytes)
    requires Plain(dnsPrefix)
    ensures PlainName(SlotSecret(s, dnsPrefix))
  {
    NameFacts(s);
    var n, name := SlotSecret(s, dnsPrefix), CertificateName(s);
    assert n[|n| - 1] == name[|name| - 1];
  }

  /** A reference designates its secret in the vault the ID designates. */
  lemma ReferenceMeaning(vaults: Vaults, s: Slot, vaultID: Bytes, dnsPrefix: Bytes)
    requires VaultOf(vaultID).Some? && VaultOf(vaultID).value in vaults
    requires Appendable(vaultID) && SECRETS !in Parse(vaultID).value.Path && Plain(dnsPrefix)
    ensures var v, name := vaults[VaultOf(vaultID).value], SlotSecret(s, dnsPrefix);
            Dereference(vaults, Reference(s, vaultID, dnsPrefix)) == if name in v then Some(v[name]) else None
  {
    SlotSecretPlain(s, dnsPrefix);
    SecretReferenceIff(vaultID, SlotSecret(s, dnsPrefix));
    assert Reference(s, vaultID, dnsPrefix) == SecretReference(vaultID, SlotSecret(s, dnsPrefix));
    assert VAULTS != SECRETS;
  }

  lemma SlotPosition(c: Certs, s: Slot) returns (n: nat)
    requires HasSlot(c, s)
    ensures n < |WriteOrder(c)| && WriteOrder(c)[n] == s
  {
    match s
    case PeerCrt(i) => n := 12 + i;
    case PeerKey(i) => n := 12 + |c.EtcdPeerCertificates| + i;
    case CaCrt => n := 0;
    case CaKey => n := 1;
    case APIServerCrt => n := 2;
    case APIServerKey => n := 3;
    case ClientCrt => n := 4;
    case ClientKey => n := 5;
    case KubeConfigCrt => n := 6;
    case KubeConfigKey => n := 7;
    case EtcdServerCrt => n := 8;
    case EtcdServerKey => n := 9;
    case EtcdClientCrt => n := 10;
    case EtcdClientKey => n := 11;
  }

  /** Every reference left in the profile dereferences to the guarded Base64 encoding of the field it replaced. */
  lemma HandoverPreserves(vaults: Vaults, c: Certs, vaultID: Bytes, dnsPrefix: Bytes, s: Slot)
    requires VaultOf(vaultID).Some? && VaultOf(vaultID).value in vaults
    requires Appendable(vaultID) && SECRETS !in Parse(vaultID).value.Path && Plain(dnsPrefix)
    requires |c.EtcdPeerPrivateKeys| == |c.EtcdPeerCertificates| && HasSlot(c, s)
    ensures var k := VaultOf(vaultID).value;
            var after := vaults[k := Written(vaults[k], c, dnsPrefix, WriteOrder(c))];
            Dereference(after, Field(References(c, vaultID, dnsPrefix), s)) == Some(Base64Encode(Field(c, s)))
  {
    var k := VaultOf(vaultID).value;
    var after := vaults[k := Written(vaults[k], c, dnsPrefix, WriteOrder(c))];
    var n := SlotPosition(c, s);
    WrittenLookup(vaults[k], c, dnsPrefix, WriteOrder(c), n);
    ReferencesReplaceAllIff(c, vaultID, dnsPrefix);
    assert Field(References(c, vaultID, dnsPrefix), s) == Reference(s, vaultID, dnsPrefix);
    ReferenceMeaning(after, s, vaultID, dnsPrefix);
  }
}
