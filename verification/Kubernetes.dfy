/** The kube config of a cluster whose certificates live in the key vault (acsengine/kubernetes.go). */
module Kubernetes {
  import opened Results
  import opened Text
  import opened Base64
  import opened Certificates
  import opened Clusters
  import opened Handover
  import opened Environment
  import opened KeyVaults

  /** The kube config that acs-engine makes from the secrets in the vault. */
  ghost function KubeConfigText(c: AcsEngine, vaults: Vaults, m: ApiModel): Option<Bytes> {
    if HasKubeConfigSecrets(vaults, m.VaultID, m.DNSPrefix)
    then c.GenerateKubeConfig(m.(Certificates := Fetched(m.Certificates, vaults[VaultOf(m.VaultID).value],
                                                         m.DNSPrefix)))
    else None
  }

  /** The kube config came from the fetched secrets, and references are in place of every field. */
  ghost predicate ThroughVault(c: AcsEngine, vaults: Vaults, m: ApiModel, m': ApiModel, text: Bytes) {
    && KubeConfigText(c, vaults, m) == Some(text)
    && m' == WithReferences(m)
    && |m.Certificates.EtcdPeerCertificates| <= |m.Certificates.EtcdPeerPrivateKeys|
  }

  /** The vault and the model have what a kube config takes. */
  ghost predicate KubeConfigReady(c: AcsEngine, vaults: Vaults, m: ApiModel) {
    && KubeConfigText(c, vaults, m).Some?
    && |m.Certificates.EtcdPeerCertificates| <= |m.Certificates.EtcdPeerPrivateKeys|
  }

  /** And what it makes passes the check of internal/kubernetes. */
  ghost predicate KubeConfigReadable(c: AcsEngine, vaults: Vaults, m: ApiModel) {
    KubeConfigReady(c, vaults, m) && c.ParsesKubeConfig(KubeConfigText(c, vaults, m).value)
  }

  /**
   getKubeConfig: the certificates it needs are pulled from the vault, used, and replaced by
   references again, as is every other field whatever it held before.
   */
  method GetKubeConfig(c: ArmClient, cluster: ContainerService, keyVault: bool) returns (r: Result<Bytes, Error>)
    requires cluster.Valid()
    modifies cluster.CertificateProfile, cluster.CertificateProfile.EtcdPeerCertificates,
             cluster.CertificateProfile.EtcdPeerPrivateKeys
    ensures SameButCertificates(old(cluster.Model()), cluster.Model())
    ensures r.Success? && keyVault ==> ThroughVault(c.acs, c.vaults, old(cluster.Model()), cluster.Model(), r.value)
    ensures !keyVault ==> cluster.Model() == old(cluster.Model())
    ensures r.Success? && !keyVault ==> c.acs.GenerateKubeConfig(cluster.Model()) == Some(r.value)
    ensures c.reliable && keyVault && KubeConfigReady(c.acs, c.vaults, old(cluster.Model())) ==> r.Success?
  {
    if keyVault {
      r := GetKubeConfigThroughVault(c, cluster);
    } else {
      r := c.GenerateKubeConfig(cluster);
    }
  }

  /** The call the update steps make; what they need of it is what it leaves in the model. */
  method GetKubeConfigForUpdate(c: ArmClient, cluster: ContainerService, ghost m: ApiModel)
    returns (r: Result<Bytes, Error>)
    requires cluster.Valid() && m == cluster.Model()
    modifies cluster.CertificateProfile, cluster.CertificateProfile.EtcdPeerCertificates,
             cluster.CertificateProfile.EtcdPeerPrivateKeys
    ensures r.Success? ==> cluster.Model() == WithReferences(m) && KubeConfigReady(c.acs, c.vaults, m)
    ensures r.Success? ==> KubeConfigText(c.acs, c.vaults, m) == Some(r.value)
    ensures c.reliable && KubeConfigReady(c.acs, c.vaults, m) ==> r.Success?
  {
    r := GetKubeConfig(c, cluster, true);
  }

  /** setKubeConfig, of which only the failures matter here: the text must be one that can be flattened. */
  method SetKubeConfig(c: ArmClient, cluster: ContainerService, ghost m: ApiModel) returns (r: Outcome<Error>)
    requires cluster.Valid() && m == cluster.Model()
    modifies cluster.CertificateProfile, cluster.CertificateProfile.EtcdPeerCertificates,
             cluster.CertificateProfile.EtcdPeerPrivateKeys
    ensures r.Pass? ==> KubeConfigReadable(c.acs, c.vaults, m)
    ensures c.reliable && KubeConfigReadable(c.acs, c.vaults, m) ==> r.Pass?
  {
    var kubeconfig := GetKubeConfigForUpdate(c, cluster, m);
    if kubeconfig.Failure? { return Fail(kubeconfig.error); }
    r := if c.acs.ParsesKubeConfig(kubeconfig.value) then Pass else Fail(KubeConfigUnreadable);
  }

  method GetKubeConfigThroughVault(c: ArmClient, cluster: ContainerService) returns (r: Result<Bytes, Error>)
    requires cluster.Valid()
    modifies cluster.CertificateProfile, cluster.CertificateProfile.EtcdPeerCertificates,
             cluster.CertificateProfile.EtcdPeerPrivateKeys
    ensures SameButCertificates(old(cluster.Model()), cluster.Model())
    ensures r.Success? ==> ThroughVault(c.acs, c.vaults, old(cluster.Model()), cluster.Model(), r.value)
    ensures c.reliable && KubeConfigReady(c.acs, c.vaults, old(cluster.Model())) ==> r.Success?
  {
    hide HasKubeConfigSecrets, Fetched;
    ghost var m := cluster.Model();
    r := FetchAndGenerate(c, cluster);
    if r.Failure? { return; }
    ghost var fetched := cluster.Model().Certificates;
    var restore := cluster.SetCertificateProfileSecretsAPIModel();
    if restore.Fail? { return Failure(restore.error); }
    SameReferences(fetched, m.Certificates, cluster.VaultID, cluster.DNSPrefix);
  }

  method FetchAndGenerate(c: ArmClient, cluster: ContainerService) returns (r: Result<Bytes, Error>)
    modifies cluster.CertificateProfile
    ensures SameButCertificates(old(cluster.Model()), cluster.Model())
    ensures r.Success? ==> && HasKubeConfigSecrets(c.vaults, cluster.VaultID, cluster.DNSPrefix)
                           && cluster.Model().Certificates ==
                              Fetched(old(cluster.Model()).Certificates, c.vaults[VaultOf(cluster.VaultID).value],
                                      cluster.DNSPrefix)
                           && c.acs.GenerateKubeConfig(cluster.Model()) == Some(r.value)
    ensures c.reliable && KubeConfigReady(c.acs, c.vaults, old(cluster.Model())) ==> r.Success?
  {
    var fetch := GetCertificateProfileSecretsKeyVault(c, cluster);
    if fetch.Fail? { return Failure(fetch.error); }
    r := c.GenerateKubeConfig(cluster);
  }

  /** The references depend on the number of peers and the surplus keys alone. */
  lemma SameReferences(a: Certs, b: Certs, vaultID: Bytes, dnsPrefix: Bytes)
    requires a.EtcdPeerCertificates == b.EtcdPeerCertificates && a.EtcdPeerPrivateKeys == b.EtcdPeerPrivateKeys
    ensures References(a, vaultID, dnsPrefix) == References(b, vaultID, dnsPrefix)
  {
  }

  /**
   A successful fetch through the vault leaves a reference in every field whatever it held before, when
   there are as many peer keys as certificates, and changes nothing if all fields were references.
   */
  lemma ThroughVaultRestores(c: AcsEngine, vaults: Vaults, m: ApiModel, m': ApiModel, text: Bytes)
    requires ThroughVault(c, vaults, m, m', text)
    ensures |m.Certificates.EtcdPeerPrivateKeys| == |m.Certificates.EtcdPeerCertificates| ==>
              AllReferences(m'.Certificates, m.VaultID, m.DNSPrefix)
    ensures AllReferences(m.Certificates, m.VaultID, m.DNSPrefix) ==> m' == m
  {
    ReferencesReplaceAllIff(m.Certificates, m.VaultID, m.DNSPrefix);
    if AllReferences(m.Certificates, m.VaultID, m.DNSPrefix) {
      ReferencesIdempotent(m.Certificates, m.VaultID, m.DNSPrefix);
    }
  }

  /**
   What is fetched for a slot after the handover is the guarded decoding of the original field, and
   the field itself if it is PEM.
   */
  lemma FetchedAfterHandover(before: Vaults, uri: VaultKey, certs: Certs, dnsPrefix: Bytes, after: Vaults, s: Slot)
    requires uri in before && HandedOver(before, uri, certs, dnsPrefix, after) && HasSlot(certs, s)
    ensures var v, name := after[uri], SlotSecret(s, dnsPrefix);
            && name in v
            && Base64Decode(v[name]) == Base64Decode(Field(certs, s))
            && (!IsBase64Encoded(Field(certs, s)) ==> Base64Decode(v[name]) == Field(certs, s))
  {
    var n := SlotPosition(certs, s);
    WrittenLookup(before[uri], certs, dnsPrefix, WriteOrder(certs), n);
    GuardedDecodeEncode(Field(certs, s));
  }

  /**
   Through the vault and back: the kube config is made from the very certificates that were handed
   over, when those are PEM.
   */
  lemma KubeConfigCertificatesSurvive(before: Vaults, uri: VaultKey, certs: Certs, current: Certs, dnsPrefix: Bytes,
                                      after: Vaults)
    requires uri in before && HandedOver(before, uri, certs, dnsPrefix, after)
    requires !IsBase64Encoded(certs.CaCertificate) && !IsBase64Encoded(certs.KubeConfigCertificate)
             && !IsBase64Encoded(certs.KubeConfigPrivateKey)
    ensures HasThree(after[uri], dnsPrefix)
    ensures Fetched(current, after[uri], dnsPrefix) ==
            current.(CaCertificate := certs.CaCertificate,
                     KubeConfigCertificate := certs.KubeConfigCertificate,
                     KubeConfigPrivateKey := certs.KubeConfigPrivateKey)
  {
    FetchedAfterHandover(before, uri, certs, dnsPrefix, after, CaCrt);
    FetchedAfterHandover(before, uri, certs, dnsPrefix, after, KubeConfigCrt);
    FetchedAfterHandover(before, uri, certs, dnsPrefix, after, KubeConfigKey);
  }
}
