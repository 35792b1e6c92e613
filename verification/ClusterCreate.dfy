/**
 Generating the templates of a new cluster and handing its certificates to the vault
 (acsengine/cluster_create.go).
 */
module ClusterCreate {
  import opened Results
  import opened Text
  import opened Base64
  import opened ResourceIDs
  import opened ResourceIDFormat
  import opened Certificates
  import opened Clusters
  import opened Handover
  import opened ClusterTemplates
  import opened Environment
  import opened KeyVaults

  /** The vault has none of the model's certificates, or a prefix of them, or all. */
  ghost predicate PartlyHandedOver(before: Vaults, m: ApiModel, after: Vaults) {
    || after == before
    || (HasVault(before, m.VaultID) &&
        (|| PartlyWritten(before, VaultOf(m.VaultID).value, m.Certificates, m.DNSPrefix, after)
         || HandedOver(before, VaultOf(m.VaultID).value, m.Certificates, m.DNSPrefix, after)))
  }

  /** Every field of the profile is a reference to a secret that holds the encoding of the given field. */
  ghost predicate AllDereference(vaults: Vaults, profile: Certs, certs: Certs) {
    forall s :: HasSlot(certs, s) ==>
      HasSlot(profile, s) && Dereference(vaults, Field(profile, s)) == Some(Base64Encode(Field(certs, s)))
  }

  /** The model's certificates are in the vault, and references to them in the model. */
  ghost predicate HandedOverWithReferences(before: Vaults, m: ApiModel, after: Vaults, m': ApiModel) {
    && HasVault(before, m.VaultID)
    && HandedOver(before, VaultOf(m.VaultID).value, m.Certificates, m.DNSPrefix, after)
    && m' == WithReferences(m)
  }

  /** An ID and a prefix for which references mean what they should. */
  ghost predicate WellFormed(m: ApiModel) {
    Parse(m.VaultID).Success? && Appendable(m.VaultID) && SECRETS !in Parse(m.VaultID).value.Path && Plain(m.DNSPrefix)
  }

  /** Writes the certificates of a complete model to the vault and puts the references in their place. */
  method HandOver(c: ArmClient, cluster: ContainerService, ghost m: ApiModel) returns (r: Outcome<Error>)
    requires cluster.Valid() && m == cluster.Model() && CompleteModel(m)
    modifies c`vaults
    modifies cluster.CertificateProfile, cluster.CertificateProfile.EtcdPeerCertificates,
             cluster.CertificateProfile.EtcdPeerPrivateKeys
    ensures SameButCertificates(m, cluster.Model())
    ensures if r.Pass? then HandedOverWithReferences(old(c.vaults), m, c.vaults, cluster.Model())
            else PartlyHandedOver(old(c.vaults), m, c.vaults)
    ensures c.reliable && HasVault(old(c.vaults), m.VaultID) ==> r.Pass?
  {
    r := SetCertificateProfileSecretsKeyVault(c, cluster);
    if r.Pass? {
      r := cluster.SetCertificateProfileSecretsAPIModel();
    }
  }

  /**
   generateACSEngineTemplate.  Missing certificates are generated first; with write on, the certificates
   then go to the vault and references take their place.
   */
  method GenerateACSEngineTemplate(c: ArmClient, cluster: ContainerService, write: bool, ghost m: ApiModel)
    returns (r: Outcome<Error>, ghost generated: Certs)
    requires cluster.Valid() && m == cluster.Model()
    modifies c`vaults, cluster`CertificateProfile
    modifies cluster.CertificateProfile, cluster.CertificateProfile.EtcdPeerCertificates,
             cluster.CertificateProfile.EtcdPeerPrivateKeys
    ensures cluster.Valid() && SameButCertificates(m, cluster.Model()) && Complete(generated, m.Rest.MasterCount)
    ensures !write ==> c.vaults == old(c.vaults) && (r.Pass? ==> cluster.Model() == WithGenerated(m, generated))
    ensures write && r.Pass? ==>
              HandedOverWithReferences(old(c.vaults), WithGenerated(m, generated), c.vaults, cluster.Model())
    ensures r.Fail? ==> PartlyHandedOver(old(c.vaults), WithGenerated(m, generated), c.vaults)
    ensures c.reliable && (write ==> HasVault(old(c.vaults), m.VaultID)) ==> r.Pass?
  {
    var first;
    first, generated := FormatTemplates(c, cluster, m);
    if first.Failure? { return Fail(first.error), generated; }
    if write {
      GeneratedFilled(m, generated);
      r := WriteTemplate(c, cluster, WithGenerated(m, generated));
    } else {
      r := Pass;
    }
  }

  /** The steps taken when write is on. */
  method WriteTemplate(c: ArmClient, cluster: ContainerService, ghost m: ApiModel) returns (r: Outcome<Error>)
    requires cluster.Valid() && m == cluster.Model() && CompleteModel(m)
    modifies c`vaults, cluster`CertificateProfile
    modifies cluster.CertificateProfile, cluster.CertificateProfile.EtcdPeerCertificates,
             cluster.CertificateProfile.EtcdPeerPrivateKeys
    ensures cluster.Valid() && SameButCertificates(m, cluster.Model())
    ensures if r.Pass? then HandedOverWithReferences(old(c.vaults), m, c.vaults, cluster.Model())
            else PartlyHandedOver(old(c.vaults), m, c.vaults)
    ensures c.reliable && HasVault(old(c.vaults), m.VaultID) ==> r.Pass?
  {
    r := HandOver(c, cluster, m);
    if r.Pass? {
      ReferencesComplete(m.Certificates, m.VaultID, m.DNSPrefix, m.Rest.MasterCount);
      r := FormatAgain(c, cluster, WithReferences(m));
    }
  }

  /** Formats the templates with the references in place, when no certificates may be generated, and writes them. */
  method FormatAgain(c: ArmClient, cluster: ContainerService, ghost m: ApiModel) returns (r: Outcome<Error>)
    requires cluster.Valid() && m == cluster.Model()
    modifies cluster`CertificateProfile
    ensures cluster.Valid() && SameButCertificates(m, cluster.Model())
    ensures CompleteModel(m) && r.Pass? ==> cluster.Model() == m
    ensures !CompleteModel(m) ==> r.Fail?
    ensures c.reliable && CompleteModel(m) ==> r.Pass?
  {
    var again, generated := FormatTemplates(c, cluster, m);
    if again.Failure? { return Fail(again.error); }
    GeneratedFilled(m, generated);
    if again.value { return Fail(CertificatesRegenerated); }
    var written := c.Succeeds();
    r := if written then Pass else Fail(TemplatesFailed);
  }

  /**
   After template generation with write on, for a well-formed vault ID and prefix, every reference left in
   the profile means the guarded Base64 encoding of the certificate it replaced, for any number of masters.
   */
  lemma TemplateDereferences(before: Vaults, m: ApiModel, after: Vaults, m': ApiModel)
    requires HandedOverWithReferences(before, m, after, m') && WellFormed(m) && CompleteModel(m)
    ensures AllDereference(after, m'.Certificates, m.Certificates)
  {
    forall s | HasSlot(m.Certificates, s)
      ensures HasSlot(m'.Certificates, s)
      ensures Dereference(after, Field(m'.Certificates, s)) == Some(Base64Encode(Field(m.Certificates, s)))
    {
      FieldOfReferences(m.Certificates, m.VaultID, m.DNSPrefix, s);
      HandoverPreserves(before, m.Certificates, m.VaultID, m.DNSPrefix, s);
    }
  }
}
