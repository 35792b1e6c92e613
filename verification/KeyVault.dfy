/** Moving certificates into the key vault and back (acsengine/key_vault.go). */
module KeyVaults {
  import opened Results
  import opened Text
  import opened Base64
  import opened ResourceIDs
  import opened Certificates
  import opened Clusters
  import opened Handover
  import opened Environment

  predicate HasVault(vaults: Vaults, vaultID: Bytes) {
    VaultOf(vaultID).Some? && VaultOf(vaultID).value in vaults
  }

  method GetKeyVaultURI(c: ArmClient, vaultID: Bytes) returns (r: Result<VaultKey, Error>)
    ensures r.Success? ==> VaultOf(vaultID) == Some(r.value) && r.value in c.vaults
    ensures r.Success? ==> && Parse(vaultID).Success? && r.value.resourceGroup == Parse(vaultID).value.ResourceGroup
                           && "vaults" in Parse(vaultID).value.Path
                           && r.value.name == Parse(vaultID).value.Path["vaults"]
    ensures c.reliable && HasVault(c.vaults, vaultID) ==> r.Success?
  {
    var id := ParseAzureResourceID(vaultID);
    if id.Failure? { return Failure(BadID(id.error)); }
    if VAULTS !in id.value.Path { return Failure(VaultNotFound); }
    r := c.GetVault(VaultKey(id.value.ResourceGroup, id.value.Path[VAULTS]));
  }

  method GetSecretFromKeyVault(c: ArmClient, vaultID: Bytes, name: Bytes) returns (r: Result<Bytes, Error>)
    ensures r.Success? ==> && HasVault(c.vaults, vaultID) && name in c.vaults[VaultOf(vaultID).value]
                           && r.value == c.vaults[VaultOf(vaultID).value][name]
    ensures c.reliable && HasVault(c.vaults, vaultID) && name in c.vaults[VaultOf(vaultID).value] ==> r.Success?
  {
    var uri := GetKeyVaultURI(c, vaultID);
    if uri.Failure? { return Failure(uri.error); }
    r := c.GetSecret(uri.value, name);
  }

  /** The writes of one profile to one vault: states[n] is what the vaults hold after the first n slots. */
  datatype Batch = Batch(uri: VaultKey, certs: Certs, dnsPrefix: Bytes, slots: seq<Slot>, states: seq<Vaults>) {
    ghost predicate Ordered() {
      && |slots| == 12 + |certs.EtcdPeerCertificates| + |certs.EtcdPeerPrivateKeys|
      && |states| == |slots| + 1
      && slots[0] == CaCrt && slots[1] == CaKey && slots[2] == APIServerCrt && slots[3] == APIServerKey
      && slots[4] == ClientCrt && slots[5] == ClientKey && slots[6] == KubeConfigCrt && slots[7] == KubeConfigKey
      && slots[8] == EtcdServerCrt && slots[9] == EtcdServerKey && slots[10] == EtcdClientCrt
      && slots[11] == EtcdClientKey
      && (forall k :: 12 <= k < 12 + |certs.EtcdPeerCertificates| ==> slots[k] == PeerCrt(k - 12))
      && (forall k :: 12 + |certs.EtcdPeerCertificates| <= k < |slots| ==>
            slots[k] == PeerKey(k - 12 - |certs.EtcdPeerCertificates|))
    }

    /** Writing slot n leads from states[n] to states[n + 1]. */
    ghost predicate Writes(n: nat) {
      && n < |slots| && n + 1 < |states| && HasSlot(certs, slots[n]) && uri in states[n]
      && states[n + 1] ==
           states[n][uri := states[n][uri][SlotSecret(slots[n], dnsPrefix) := Base64Encode(Field(certs, slots[n]))]]
    }

    ghost predicate Concerns(uri: VaultKey, certs: Certs, dnsPrefix: Bytes) {
      && Ordered() && uri == this.uri && certs == this.certs && dnsPrefix == this.dnsPrefix
      && (forall n :: 0 <= n < |slots| ==> Writes(n))
    }

    /** The first n slots were written, or the writes stopped early, which they do not if the vault is reliable. */
    ghost predicate Written(n: nat, after: Vaults, ok: bool, reliable: bool)
      requires n < |states|
    {
      if ok then after == states[n] else !reliable && StoppedEarly(after)
    }

    /** Some slots were not written. */
    ghost predicate StoppedEarly(after: Vaults) {
      exists n: nat :: n < |slots| && n < |states| && after == states[n]
    }
  }

  /** base64Encode and setSecret for the next slot of the profile. */
  method WriteSlot(c: ArmClient, uri: VaultKey, s: Slot, field: Bytes, dnsPrefix: Bytes, ghost batch: Batch,
                   ghost n: nat)
    returns (r: Outcome<Error>)
    requires batch.Concerns(uri, batch.certs, dnsPrefix) && n < |batch.slots| && c.vaults == batch.states[n]
    requires batch.slots[n] == s && HasSlot(batch.certs, s) && field == Field(batch.certs, s)
    modifies c`vaults
    ensures c.vaults == batch.states[if r.Pass? then n + 1 else n]
    ensures c.reliable ==> r.Pass?
  {
    assert batch.Writes(n);
    r := c.SetSecret(uri, SecretName(CertificateName(s), dnsPrefix), Base64Encode(field));
  }

  method WriteServerSecrets(c: ArmClient, uri: VaultKey, profile: CertificateProfile, dnsPrefix: Bytes,
                            ghost batch: Batch)
    returns (r: Outcome<Error>)
    requires batch.Concerns(uri, profile.Value(), dnsPrefix) && c.vaults == batch.states[0]
    modifies c`vaults
    ensures batch.Written(4, c.vaults, r.Pass?, c.reliable)
  {
    r := Pass;
    :- WriteSlot(c, uri, CaCrt, profile.CaCertificate, dnsPrefix, batch, 0);
    :- WriteSlot(c, uri, CaKey, profile.CaPrivateKey, dnsPrefix, batch, 1);
    :- WriteSlot(c, uri, APIServerCrt, profile.APIServerCertificate, dnsPrefix, batch, 2);
    :- WriteSlot(c, uri, APIServerKey, profile.APIServerPrivateKey, dnsPrefix, batch, 3);
  }

  method WriteClientSecrets(c: ArmClient, uri: VaultKey, profile: CertificateProfile, dnsPrefix: Bytes,
                            ghost batch: Batch)
    returns (r: Outcome<Error>)
    requires batch.Concerns(uri, profile.Value(), dnsPrefix) && c.vaults == batch.states[4]
    modifies c`vaults
    ensures batch.Written(8, c.vaults, r.Pass?, c.reliable)
  {
    r := Pass;
    :- WriteSlot(c, uri, ClientCrt, profile.ClientCertificate, dnsPrefix, batch, 4);
    :- WriteSlot(c, uri, ClientKey, profile.ClientPrivateKey, dnsPrefix, batch, 5);
    :- WriteSlot(c, uri, KubeConfigCrt, profile.KubeConfigCertificate, dnsPrefix, batch, 6);
    :- WriteSlot(c, uri, KubeConfigKey, profile.KubeConfigPrivateKey, dnsPrefix, batch, 7);
  }

  method WriteEtcdSecrets(c: ArmClient, uri: VaultKey, profile: CertificateProfile, dnsPrefix: Bytes,
                          ghost batch: Batch)
    returns (r: Outcome<Error>)
    requires batch.Concerns(uri, profile.Value(), dnsPrefix) && c.vaults == batch.states[8]
    modifies c`vaults
    ensures batch.Written(12, c.vaults, r.Pass?, c.reliable)
  {
    r := Pass;
    :- WriteSlot(c, uri, EtcdServerCrt, profile.EtcdServerCertificate, dnsPrefix, batch, 8);
    :- WriteSlot(c, uri, EtcdServerKey, profile.EtcdServerPrivateKey, dnsPrefix, batch, 9);
    :- WriteSlot(c, uri, EtcdClientCrt, profile.EtcdClientCertificate, dnsPrefix, batch, 10);
    :- WriteSlot(c, uri, EtcdClientKey, profile.EtcdClientPrivateKey, dnsPrefix, batch, 11);
  }

  lemma BatchLengths(batch: Batch, uri: VaultKey, certs: Certs, dnsPrefix: Bytes)
    requires batch.Concerns(uri, certs, dnsPrefix)
    ensures batch.certs == certs && |batch.states| == |batch.slots| + 1
    ensures |batch.slots| == 12 + |certs.EtcdPeerCertificates| + |certs.EtcdPeerPrivateKeys|
  {
  }

  method WritePeerCertificate(c: ArmClient, uri: VaultKey, profile: CertificateProfile, i: nat, dnsPrefix: Bytes,
                              ghost batch: Batch, ghost n: nat)
    returns (r: Outcome<Error>)
    requires batch.Concerns(uri, profile.Value(), dnsPrefix) && i < profile.EtcdPeerCertificates.Length && n == 12 + i
    requires n < |batch.states| && c.vaults == batch.states[n]
    modifies c`vaults
    ensures n + 1 < |batch.states| && c.vaults == batch.states[if r.Pass? then n + 1 else n]
    ensures c.reliable ==> r.Pass?
    ensures r.Fail? ==> batch.StoppedEarly(c.vaults)
  {
    var crt := profile.EtcdPeerCertificates[i];
    assert batch.Writes(n);
    r := WriteSlot(c, uri, PeerCrt(i), crt, dnsPrefix, batch, n);
  }

  method WritePeerCertificates(c: ArmClient, uri: VaultKey, profile: CertificateProfile, dnsPrefix: Bytes,
                               ghost batch: Batch)
    returns (r: Outcome<Error>)
    requires batch.Concerns(uri, profile.Value(), dnsPrefix) && c.vaults == batch.states[12]
    modifies c`vaults
    ensures batch.Written(12 + profile.EtcdPeerCertificates.Length, c.vaults, r.Pass?, c.reliable)
  {
    hide Batch.StoppedEarly, Batch.Concerns;
    BatchLengths(batch, uri, profile.Value(), dnsPrefix);
    ghost var n := 12;
    for i := 0 to profile.EtcdPeerCertificates.Length
      invariant n == 12 + i && profile.Value() == batch.certs && c.vaults == batch.states[n]
    {
      r := WritePeerCertificate(c, uri, profile, i, dnsPrefix, batch, n);
      if r.Fail? { return; }
      n := n + 1;
    }
    r := Pass;
  }

  method WritePeerKey(c: ArmClient, uri: VaultKey, profile: CertificateProfile, i: nat, dnsPrefix: Bytes,
                      ghost batch: Batch, ghost n: nat)
    returns (r: Outcome<Error>)
    requires batch.Concerns(uri, profile.Value(), dnsPrefix) && i < profile.EtcdPeerPrivateKeys.Length
    requires n == 12 + profile.EtcdPeerCertificates.Length + i && n < |batch.states| && c.vaults == batch.states[n]
    modifies c`vaults
    ensures n + 1 < |batch.states| && c.vaults == batch.states[if r.Pass? then n + 1 else n]
    ensures c.reliable ==> r.Pass?
    ensures r.Fail? ==> batch.StoppedEarly(c.vaults)
  {
    var key := profile.EtcdPeerPrivateKeys[i];
    assert batch.Writes(n);
    r := WriteSlot(c, uri, PeerKey(i), key, dnsPrefix, batch, n);
  }

  method WritePeerKeys(c: ArmClient, uri: VaultKey, profile: CertificateProfile, dnsPrefix: Bytes, ghost batch: Batch)
    returns (r: Outcome<Error>)
    requires batch.Concerns(uri, profile.Value(), dnsPrefix)
             && c.vaults == batch.states[12 + profile.EtcdPeerCertificates.Length]
    modifies c`vaults
    ensures batch.Written(|batch.slots|, c.vaults, r.Pass?, c.reliable)
  {
    hide Batch.StoppedEarly, Batch.Concerns;
    BatchLengths(batch, uri, profile.Value(), dnsPrefix);
    ghost var n := 12 + profile.EtcdPeerCertificates.Length;
    for i := 0 to profile.EtcdPeerPrivateKeys.Length
      invariant n == 12 + profile.EtcdPeerCertificates.Length + i
      invariant profile.Value() == batch.certs && c.vaults == batch.states[n]
    {
      r := WritePeerKey(c, uri, profile, i, dnsPrefix, batch, n);
      if r.Fail? { return; }
      n := n + 1;
    }
    assert n == |batch.slots|;
    r := Pass;
  }

  /** All slots have been written to the vault, and nothing else has changed. */
  ghost predicate HandedOver(before: Vaults, uri: VaultKey, certs: Certs, dnsPrefix: Bytes, after: Vaults)
    requires uri in before
  {
    after == before[uri := Written(before[uri], certs, dnsPrefix, WriteOrder(certs))]
  }

  /** The writes stopped before the last slot. */
  ghost predicate PartlyWritten(before: Vaults, uri: VaultKey, certs: Certs, dnsPrefix: Bytes, after: Vaults)
    requires uri in before
  {
    exists n: nat :: n < |WriteOrder(certs)|
      && after == before[uri := Written(before[uri], certs, dnsPrefix, WriteOrder(certs)[..n])]
  }

  lemma FixedOrder(certs: Certs)
    ensures var w := WriteOrder(certs);
            && |w| == 12 + |certs.EtcdPeerCertificates| + |certs.EtcdPeerPrivateKeys|
            && w[0] == CaCrt && w[1] == CaKey && w[2] == APIServerCrt && w[3] == APIServerKey
               && w[4] == ClientCrt && w[5] == ClientKey && w[6] == KubeConfigCrt && w[7] == KubeConfigKey
               && w[8] == EtcdServerCrt && w[9] == EtcdServerKey && w[10] == EtcdClientCrt && w[11] == EtcdClientKey
  {
  }

  lemma PeerOrder(certs: Certs, k: nat)
    requires 12 <= k < |WriteOrder(certs)|
    ensures WriteOrder(certs)[k] ==
            if k < 12 + |certs.EtcdPeerCertificates| then PeerCrt(k - 12)
            else PeerKey(k - 12 - |certs.EtcdPeerCertificates|)
  {
  }

  ghost function BatchOf(before: Vaults, uri: VaultKey, certs: Certs, dnsPrefix: Bytes): Batch
    requires uri in before
  {
    var slots := WriteOrder(certs);
    Batch(uri, certs, dnsPrefix, slots,
          seq(|slots| + 1, n requires 0 <= n <= |slots| =>
              before[uri := Written(before[uri], certs, dnsPrefix, slots[..n])]))
  }

  lemma BatchWrites(before: Vaults, uri: VaultKey, certs: Certs, dnsPrefix: Bytes, n: nat)
    requires uri in before && n < |WriteOrder(certs)|
    ensures BatchOf(before, uri, certs, dnsPrefix).Writes(n)
  {
    hide Handover.Written, WriteOrder, SlotSecret, Base64Encode, Field;
    var slots := WriteOrder(certs);
    WrittenStep(before[uri], certs, dnsPrefix, slots, n);
    OneMore(before, uri, Written(before[uri], certs, dnsPrefix, slots[..n]),
            SlotSecret(slots[n], dnsPrefix), Base64Encode(Field(certs, slots[n])));
    var batch := BatchOf(before, uri, certs, dnsPrefix);
    assert batch.states[n] == before[uri := Written(before[uri], certs, dnsPrefix, slots[..n])];
  }

  lemma OneMore(m: Vaults, k: VaultKey, a: Vault, name: Bytes, value: Bytes)
    ensures m[k := a][k := m[k := a][k][name := value]] == m[k := a[name := value]]
  {
  }

  lemma BatchOrdered(before: Vaults, uri: VaultKey, certs: Certs, dnsPrefix: Bytes)
    requires uri in before
    ensures BatchOf(before, uri, certs, dnsPrefix).Ordered()
  {
    FixedOrder(certs);
    forall k | 12 <= k < |WriteOrder(certs)|
      ensures WriteOrder(certs)[k] ==
              if k < 12 + |certs.EtcdPeerCertificates| then PeerCrt(k - 12)
              else PeerKey(k - 12 - |certs.EtcdPeerCertificates|)
    {
      PeerOrder(certs, k);
    }
  }

  /**
   setCertificateProfileSecretsKeyVault: on success every slot of the profile has been written to the
   cluster's vault; on failure a proper prefix of them has, or nothing at all.
   */
  method SetCertificateProfileSecretsKeyVault(c: ArmClient, cluster: ContainerService) returns (r: Outcome<Error>)
    modifies c`vaults
    ensures r.Pass? ==> && VaultOf(cluster.VaultID).Some? && VaultOf(cluster.VaultID).value in old(c.vaults)
                        && HandedOver(old(c.vaults), VaultOf(cluster.VaultID).value,
                                      cluster.CertificateProfile.Value(), cluster.DNSPrefix, c.vaults)
    ensures r.Fail? ==> c.vaults == old(c.vaults) ||
                        (VaultOf(cluster.VaultID).Some? && VaultOf(cluster.VaultID).value in old(c.vaults) &&
                         PartlyWritten(old(c.vaults), VaultOf(cluster.VaultID).value,
                                       cluster.CertificateProfile.Value(), cluster.DNSPrefix, c.vaults))
    ensures c.reliable && HasVault(old(c.vaults), cluster.VaultID) ==> r.Pass?
  {
    var keyVaultURI := GetKeyVaultURI(c, cluster.VaultID);
    if keyVaultURI.Failure? { return Fail(keyVaultURI.error); }
    var uri, profile, dnsPrefix := keyVaultURI.value, cluster.CertificateProfile, cluster.DNSPrefix;
    r := WriteProfile(c, uri, profile, dnsPrefix);
  }

  method WriteProfile(c: ArmClient, uri: VaultKey, profile: CertificateProfile, dnsPrefix: Bytes)
    returns (r: Outcome<Error>)
    requires uri in c.vaults
    modifies c`vaults
    ensures if r.Pass? then HandedOver(old(c.vaults), uri, profile.Value(), dnsPrefix, c.vaults)
            else PartlyWritten(old(c.vaults), uri, profile.Value(), dnsPrefix, c.vaults)
    ensures c.reliable ==> r.Pass?
  {
    ghost var batch := BatchOf(c.vaults, uri, profile.Value(), dnsPrefix);
    BatchConcerns(c.vaults, uri, profile.Value(), dnsPrefix);
    r := WriteBatch(c, uri, profile, dnsPrefix, batch);
    assert batch.slots[..|batch.slots|] == batch.slots;
  }

  lemma BatchConcerns(before: Vaults, uri: VaultKey, certs: Certs, dnsPrefix: Bytes)
    requires uri in before
    ensures var batch := BatchOf(before, uri, certs, dnsPrefix);
            batch.Concerns(uri, certs, dnsPrefix) && batch.states[0] == before
  {
    var batch := BatchOf(before, uri, certs, dnsPrefix);
    BatchOrdered(before, uri, certs, dnsPrefix);
    forall n | 0 <= n < |batch.slots|
      ensures batch.Writes(n)
    {
      BatchWrites(before, uri, certs, dnsPrefix, n);
    }
    assert before == before[uri := before[uri]];
  }

  method WriteBatch(c: ArmClient, uri: VaultKey, profile: CertificateProfile, dnsPrefix: Bytes, ghost batch: Batch)
    returns (r: Outcome<Error>)
    requires batch.Concerns(uri, profile.Value(), dnsPrefix) && c.vaults == batch.states[0]
    modifies c`vaults
    ensures batch.Written(|batch.slots|, c.vaults, r.Pass?, c.reliable)
  {
    hide Batch.Concerns, Batch.StoppedEarly;
    r := WriteServerSecrets(c, uri, profile, dnsPrefix, batch);
    if r.Fail? { return; }
    :- WriteClientSecrets(c, uri, profile, dnsPrefix, batch);
    :- WriteEtcdSecrets(c, uri, profile, dnsPrefix, batch);
    :- WritePeerCertificates(c, uri, profile, dnsPrefix, batch);
    r := WritePeerKeys(c, uri, profile, dnsPrefix, batch);
  }

  /** The profile with the three fields needed for a kube config taken from the vault. */
  function Fetched(certs: Certs, v: Vault, dnsPrefix: Bytes): Certs
    requires HasThree(v, dnsPrefix)
  {
    certs.(CaCertificate := Base64Decode(v[SlotSecret(CaCrt, dnsPrefix)]),
           KubeConfigCertificate := Base64Decode(v[SlotSecret(KubeConfigCrt, dnsPrefix)]),
           KubeConfigPrivateKey := Base64Decode(v[SlotSecret(KubeConfigKey, dnsPrefix)]))
  }

  ghost predicate HasKubeConfigSecrets(vaults: Vaults, vaultID: Bytes, dnsPrefix: Bytes) {
    HasVault(vaults, vaultID) && HasThree(vaults[VaultOf(vaultID).value], dnsPrefix)
  }

  /** v holds the three secrets. */
  predicate HasThree(v: Vault, dnsPrefix: Bytes) {
    SlotSecret(CaCrt, dnsPrefix) in v && SlotSecret(KubeConfigCrt, dnsPrefix) in v
      && SlotSecret(KubeConfigKey, dnsPrefix) in v
  }

  method FetchSlot(c: ArmClient, uri: VaultKey, s: Slot, dnsPrefix: Bytes, ghost v: Vault)
    returns (r: Result<Bytes, Error>)
    requires uri in c.vaults && v == c.vaults[uri]
    ensures r.Success? ==> SlotSecret(s, dnsPrefix) in v && r.value == Base64Decode(v[SlotSecret(s, dnsPrefix)])
    ensures c.reliable && SlotSecret(s, dnsPrefix) in v ==> r.Success?
  {
    var val := c.GetSecret(uri, SecretName(CertificateName(s), dnsPrefix));
    if val.Failure? { return val; }
    r := Success(Base64Decode(val.value));
  }

  /** Overwrites the three fields one after the other. */
  method FetchProfile(c: ArmClient, uri: VaultKey, profile: CertificateProfile, dnsPrefix: Bytes,
                      ghost v: Vault, ghost certs: Certs)
    returns (r: Outcome<Error>)
    requires uri in c.vaults && v == c.vaults[uri] && certs == profile.Value()
    modifies profile
    ensures r.Pass? ==> HasThree(v, dnsPrefix) && profile.Value() == Fetched(certs, v, dnsPrefix)
    ensures c.reliable && HasThree(v, dnsPrefix) ==> r.Pass?
  {
    hide SlotSecret, Base64Decode;
    var val := FetchSlot(c, uri, CaCrt, dnsPrefix, v);
    if val.Failure? { return Fail(val.error); }
    profile.CaCertificate := val.value;
    val := FetchSlot(c, uri, KubeConfigCrt, dnsPrefix, v);
    if val.Failure? { return Fail(val.error); }
    profile.KubeConfigCertificate := val.value;
    val := FetchSlot(c, uri, KubeConfigKey, dnsPrefix, v);
    if val.Failure? { return Fail(val.error); }
    profile.KubeConfigPrivateKey := val.value;
    r := Pass;
  }

  /**
   getCertificateProfileSecretsKeyVault: on success the three fields hold the decoded secrets and the
   others are unchanged; on failure some of the three may have been overwritten.
   */
  method GetCertificateProfileSecretsKeyVault(c: ArmClient, cluster: ContainerService) returns (r: Outcome<Error>)
    modifies cluster.CertificateProfile
    ensures SameButCertificates(old(cluster.Model()), cluster.Model())
    ensures r.Pass? ==> && HasKubeConfigSecrets(c.vaults, cluster.VaultID, cluster.DNSPrefix)
                        && cluster.Model().Certificates ==
                           Fetched(old(cluster.Model()).Certificates, c.vaults[VaultOf(cluster.VaultID).value],
                                   cluster.DNSPrefix)
    ensures c.reliable && HasKubeConfigSecrets(c.vaults, cluster.VaultID, cluster.DNSPrefix) ==> r.Pass?
  {
    var vaultURI := GetKeyVaultURI(c, cluster.VaultID);
    if vaultURI.Failure? { return Fail(vaultURI.error); }
    r := FetchProfile(c, vaultURI.value, cluster.CertificateProfile, cluster.DNSPrefix,
                      c.vaults[vaultURI.value], cluster.CertificateProfile.Value());
  }
}
