/**
 The cluster objects that the provider updates in place, and the value they stand for: the
 acs-engine API model kept, serialised, in the Terraform state.
 */
module Clusters {
  import opened Results
  import opened Text
  import opened ResourceIDs
  import opened Certificates
  import opened Handover

  datatype Error =
    | BadID(cause: ParseError)
    | VaultNotFound
    | SecretNotWritten
    | SecretNotRead
    | KubeConfigFailed
    | KubeConfigUnreadable
    | TemplatesFailed
    | CertificatesRegenerated
    | ApiModelUnreadable
    | IndexOutOfRange
    | NilDereference
    | ClientFailed
    | BadCredentials
    | NoDesiredCount
    | NoDeploymentName
    | NoVersion
    | NoLocation
    | NoMasterFQDN
    | ListingFailed
    | NoVMs
    | BadVMName
    | DrainFailed
    | DeleteFailed
    | DeploymentFailed
    | VersionNotAllowed
    | ResourceGroupFailed
    | ReadFailed

  // ---- values ----

  /**
   An agent pool profile; Rest stands for the attributes that no modelled operation looks at (disk
   size and so on).
   */
  datatype Pool = Pool(Name: Bytes, Count: int, VMSize: Bytes, Windows: bool, Rest: Bytes)

  datatype WindowsProfile = WindowsProfile(AdminUsername: Bytes, AdminPassword: Bytes)

  /** What is read of the master, Linux, Windows and service principal profiles but never written. */
  datatype Attributes = Attributes(
    MasterCount: nat, MasterVMSize: Bytes, AdminUsername: Bytes, SSHKeys: seq<Bytes>,
    Windows: Option<WindowsProfile>, ClientID: Bytes, Other: Bytes)

  datatype ApiModel = ApiModel(
    Name: Bytes, Location: Bytes, OrchestratorVersion: Bytes,
    Pools: seq<Pool>, Certificates: Certs, Tags: map<Bytes, Bytes>,
    DNSPrefix: Bytes, VaultID: Bytes, SecretName: Bytes, Rest: Attributes)

  /** The two models differ at most in their certificates. */
  predicate SameButCertificates(m: ApiModel, m': ApiModel) {
    m' == m.(Certificates := m'.Certificates)
  }

  /** The model with references in place of its certificates. */
  function WithReferences(m: ApiModel): ApiModel {
    m.(Certificates := References(m.Certificates, m.VaultID, m.DNSPrefix))
  }

  /**
   The code that the provider calls as black boxes: acs-engine, where the cluster ID is made from the DNS
   prefix, and the YAML check of a kube config.
   */
  datatype AcsEngine = AcsEngine(
    Serialize: ApiModel -> Bytes,
    Load: Bytes -> Option<ApiModel>,
    GenerateKubeConfig: ApiModel -> Option<Bytes>,
    ParsesKubeConfig: Bytes -> bool,
    GenerateClusterID: Bytes -> Bytes)
  {
    /** What is loaded is what was serialised. */
    ghost predicate LoadsWhatItSaves() {
      forall m :: Load(Serialize(m)) == Some(m)
    }
  }

  // ---- objects ----

  class CertificateProfile {
    var CaCertificate: Bytes
    var CaPrivateKey: Bytes
    var APIServerCertificate: Bytes
    var APIServerPrivateKey: Bytes
    var ClientCertificate: Bytes
    var ClientPrivateKey: Bytes
    var KubeConfigCertificate: Bytes
    var KubeConfigPrivateKey: Bytes
    var EtcdServerCertificate: Bytes
    var EtcdServerPrivateKey: Bytes
    var EtcdClientCertificate: Bytes
    var EtcdClientPrivateKey: Bytes
    const EtcdPeerCertificates: array<Bytes>
    const EtcdPeerPrivateKeys: array<Bytes>

    constructor (c: Certs)
      ensures Valid() && Value() == c
      ensures fresh(EtcdPeerCertificates) && fresh(EtcdPeerPrivateKeys)
    {
      CaCertificate, CaPrivateKey := c.CaCertificate, c.CaPrivateKey;
      APIServerCertificate, APIServerPrivateKey := c.APIServerCertificate, c.APIServerPrivateKey;
      ClientCertificate, ClientPrivateKey := c.ClientCertificate, c.ClientPrivateKey;
      KubeConfigCertificate, KubeConfigPrivateKey := c.KubeConfigCertificate, c.KubeConfigPrivateKey;
      EtcdServerCertificate, EtcdServerPrivateKey := c.EtcdServerCertificate, c.EtcdServerPrivateKey;
      EtcdClientCertificate, EtcdClientPrivateKey := c.EtcdClientCertificate, c.EtcdClientPrivateKey;
      EtcdPeerCertificates := new Bytes[|c.EtcdPeerCertificates|](i requires 0 <= i < |c.EtcdPeerCertificates| =>
                                                                  c.EtcdPeerCertificates[i]);
      EtcdPeerPrivateKeys := new Bytes[|c.EtcdPeerPrivateKeys|](i requires 0 <= i < |c.EtcdPeerPrivateKeys| =>
                                                                c.EtcdPeerPrivateKeys[i]);
      new;
      assert EtcdPeerCertificates[..] == c.EtcdPeerCertificates;
      assert EtcdPeerPrivateKeys[..] == c.EtcdPeerPrivateKeys;
    }

    ghost predicate Valid() {
      EtcdPeerCertificates != EtcdPeerPrivateKeys
    }

    function Value(): Certs
      reads this, EtcdPeerCertificates, EtcdPeerPrivateKeys
    {
      Certs(CaCertificate, CaPrivateKey, APIServerCertificate, APIServerPrivateKey, ClientCertificate, ClientPrivateKey,
            KubeConfigCertificate, KubeConfigPrivateKey, EtcdServerCertificate, EtcdServerPrivateKey,
            EtcdClientCertificate, EtcdClientPrivateKey, EtcdPeerCertificates[..], EtcdPeerPrivateKeys[..])
    }

    /**
     setCertificateProfileSecretsAPIModel: replaces every field by its reference.  The key loop runs
     over the certificates, so with fewer keys than certificates it leaves the key array.
     */
    method SetReferences(vaultID: Bytes, dnsPrefix: Bytes) returns (r: Outcome<Error>)
      requires Valid()
      modifies this, EtcdPeerCertificates, EtcdPeerPrivateKeys
      ensures Value() == References(old(Value()), vaultID, dnsPrefix)
      ensures r == if EtcdPeerPrivateKeys.Length < EtcdPeerCertificates.Length then Fail(IndexOutOfRange) else Pass
    {
      hide Reference;
      SetServerReferences(vaultID, dnsPrefix);
      SetClientReferences(vaultID, dnsPrefix);
      SetEtcdReferences(vaultID, dnsPrefix);
      r := SetPeerReferences(vaultID, dnsPrefix);
    }

    method SetServerReferences(vaultID: Bytes, dnsPrefix: Bytes)
      modifies `CaCertificate, `CaPrivateKey, `APIServerCertificate, `APIServerPrivateKey
      ensures CaCertificate == Reference(CaCrt, vaultID, dnsPrefix)
      ensures CaPrivateKey == Reference(CaKey, vaultID, dnsPrefix)
      ensures APIServerCertificate == Reference(APIServerCrt, vaultID, dnsPrefix)
      ensures APIServerPrivateKey == Reference(APIServerKey, vaultID, dnsPrefix)
    {
      CaCertificate := VaultSecretRefName(CertificateName(CaCrt), vaultID, dnsPrefix);
      CaPrivateKey := VaultSecretRefName(CertificateName(CaKey), vaultID, dnsPrefix);
      APIServerCertificate := VaultSecretRefName(CertificateName(APIServerCrt), vaultID, dnsPrefix);
      APIServerPrivateKey := VaultSecretRefName(CertificateName(APIServerKey), vaultID, dnsPrefix);
    }

    method SetClientReferences(vaultID: Bytes, dnsPrefix: Bytes)
      modifies `ClientCertificate, `ClientPrivateKey, `KubeConfigCertificate, `KubeConfigPrivateKey
      ensures ClientCertificate == Reference(ClientCrt, vaultID, dnsPrefix)
      ensures ClientPrivateKey == Reference(ClientKey, vaultID, dnsPrefix)
      ensures KubeConfigCertificate == Reference(KubeConfigCrt, vaultID, dnsPrefix)
      ensures KubeConfigPrivateKey == Reference(KubeConfigKey, vaultID, dnsPrefix)
    {
      ClientCertificate := VaultSecretRefName(CertificateName(ClientCrt), vaultID, dnsPrefix);
      ClientPrivateKey := VaultSecretRefName(CertificateName(ClientKey), vaultID, dnsPrefix);
      KubeConfigCertificate := VaultSecretRefName(CertificateName(KubeConfigCrt), vaultID, dnsPrefix);
      KubeConfigPrivateKey := VaultSecretRefName(CertificateName(KubeConfigKey), vaultID, dnsPrefix);
    }

    method SetEtcdReferences(vaultID: Bytes, dnsPrefix: Bytes)
      modifies `EtcdClientCertificate, `EtcdClientPrivateKey, `EtcdServerCertificate, `EtcdServerPrivateKey
      ensures EtcdClientCertificate == Reference(EtcdClientCrt, vaultID, dnsPrefix)
      ensures EtcdClientPrivateKey == Reference(EtcdClientKey, vaultID, dnsPrefix)
      ensures EtcdServerCertificate == Reference(EtcdServerCrt, vaultID, dnsPrefix)
      ensures EtcdServerPrivateKey == Reference(EtcdServerKey, vaultID, dnsPrefix)
    {
      EtcdClientCertificate := VaultSecretRefName(CertificateName(EtcdClientCrt), vaultID, dnsPrefix);
      EtcdClientPrivateKey := VaultSecretRefName(CertificateName(EtcdClientKey), vaultID, dnsPrefix);
      EtcdServerCertificate := VaultSecretRefName(CertificateName(EtcdServerCrt), vaultID, dnsPrefix);
      EtcdServerPrivateKey := VaultSecretRefName(CertificateName(EtcdServerKey), vaultID, dnsPrefix);
    }

    method SetPeerReferences(vaultID: Bytes, dnsPrefix: Bytes) returns (r: Outcome<Error>)
      requires Valid()
      modifies EtcdPeerCertificates, EtcdPeerPrivateKeys
      ensures EtcdPeerCertificates[..] == References(old(Value()), vaultID, dnsPrefix).EtcdPeerCertificates
      ensures EtcdPeerPrivateKeys[..] == References(old(Value()), vaultID, dnsPrefix).EtcdPeerPrivateKeys
      ensures r == if EtcdPeerPrivateKeys.Length < EtcdPeerCertificates.Length then Fail(IndexOutOfRange) else Pass
    {
      SetPeerCertificateReferences(vaultID, dnsPrefix);
      r := SetPeerKeyReferences(vaultID, dnsPrefix);
    }

    method SetPeerCertificateReferences(vaultID: Bytes, dnsPrefix: Bytes)
      modifies EtcdPeerCertificates
      ensures forall j :: 0 <= j < EtcdPeerCertificates.Length ==>
                EtcdPeerCertificates[j] == Reference(PeerCrt(j), vaultID, dnsPrefix)
    {
      for i := 0 to EtcdPeerCertificates.Length
        invariant forall j :: 0 <= j < i ==> EtcdPeerCertificates[j] == Reference(PeerCrt(j), vaultID, dnsPrefix)
      {
        EtcdPeerCertificates[i] := VaultSecretRefName(CertificateName(PeerCrt(i)), vaultID, dnsPrefix);
      }
    }

    method SetPeerKeyReferences(vaultID: Bytes, dnsPrefix: Bytes) returns (r: Outcome<Error>)
      requires Valid()
      modifies EtcdPeerPrivateKeys
      ensures forall j :: 0 <= j < EtcdPeerPrivateKeys.Length ==>
                EtcdPeerPrivateKeys[j] ==
                if j < EtcdPeerCertificates.Length then Reference(PeerKey(j), vaultID, dnsPrefix)
                  else old(EtcdPeerPrivateKeys[j])
      ensures r == if EtcdPeerPrivateKeys.Length < EtcdPeerCertificates.Length then Fail(IndexOutOfRange) else Pass
    {
      for i := 0 to EtcdPeerCertificates.Length
        invariant i <= EtcdPeerPrivateKeys.Length
        invariant forall j :: 0 <= j < i ==> EtcdPeerPrivateKeys[j] == Reference(PeerKey(j), vaultID, dnsPrefix)
        invariant forall j :: i <= j < EtcdPeerPrivateKeys.Length ==>
                    EtcdPeerPrivateKeys[j] == old(EtcdPeerPrivateKeys[j])
      {
        if i >= EtcdPeerPrivateKeys.Length {
          return Fail(IndexOutOfRange);
        }
        EtcdPeerPrivateKeys[i] := VaultSecretRefName(CertificateName(PeerKey(i)), vaultID, dnsPrefix);
      }
      r := Pass;
    }
  }

  class ContainerService {
    const Name: Bytes
    const Location: Bytes
    var OrchestratorVersion: Bytes
    var AgentPoolProfiles: array<Pool>
    var CertificateProfile: CertificateProfile
    var Tags: map<Bytes, Bytes>
    const DNSPrefix: Bytes
    const VaultID: Bytes
    const SecretName: Bytes
    const Rest: Attributes

    ghost predicate Valid()
      reads this
    {
      CertificateProfile.Valid()
    }

    /** Every object that holds a part of the model. */
    ghost function Repr(): set<object>
      reads this
    {
      {this, AgentPoolProfiles, CertificateProfile, CertificateProfile.EtcdPeerCertificates,
       CertificateProfile.EtcdPeerPrivateKeys}
    }

    function Model(): ApiModel
      reads this, AgentPoolProfiles, CertificateProfile, CertificateProfile.EtcdPeerCertificates,
            CertificateProfile.EtcdPeerPrivateKeys
    {
      ApiModel(Name, Location, OrchestratorVersion, AgentPoolProfiles[..], CertificateProfile.Value(), Tags, DNSPrefix,
               VaultID, SecretName, Rest)
    }

    /** setCertificateProfileSecretsAPIModel. */
    method SetCertificateProfileSecretsAPIModel() returns (r: Outcome<Error>)
      requires Valid()
      modifies CertificateProfile, CertificateProfile.EtcdPeerCertificates, CertificateProfile.EtcdPeerPrivateKeys
      ensures Model() == WithReferences(old(Model()))
      ensures r == if CertificateProfile.EtcdPeerPrivateKeys.Length < CertificateProfile.EtcdPeerCertificates.Length
                   then Fail(IndexOutOfRange) else Pass
    {
      r := CertificateProfile.SetReferences(VaultID, DNSPrefix);
    }

    /** Replaces the profile list by a list of one profile. */
    method CutToPool(p: Pool)
      requires Valid()
      modifies this`AgentPoolProfiles
      ensures Valid() && fresh(AgentPoolProfiles)
      ensures Model() == old(Model()).(Pools := [p])
    {
      AgentPoolProfiles := new Pool[1](_ => p);
      assert AgentPoolProfiles[..] == [p];
    }

    method SetPoolCount(i: nat, count: int)
      requires Valid() && i < AgentPoolProfiles.Length
      modifies AgentPoolProfiles
      ensures Model() == old(Model()).(Pools := old(Model()).Pools[i := old(Model()).Pools[i].(Count := count)])
    {
      AgentPoolProfiles[i] := AgentPoolProfiles[i].(Count := count);
    }

    /** A loaded model is a new object in every part. */
    constructor (m: ApiModel)
      ensures Valid() && Model() == m
      ensures fresh(Repr())
    {
      Name, Location, OrchestratorVersion, Tags := m.Name, m.Location, m.OrchestratorVersion, m.Tags;
      DNSPrefix, VaultID, SecretName, Rest := m.DNSPrefix, m.VaultID, m.SecretName, m.Rest;
      CertificateProfile := new CertificateProfile(m.Certificates);
      AgentPoolProfiles := new Pool[|m.Pools|](i requires 0 <= i < |m.Pools| => m.Pools[i]);
      new;
      assert AgentPoolProfiles[..] == m.Pools;
    }
  }

  /** Every field of the value is the object's field of that name. */
  lemma ProfileFields(p: CertificateProfile)
    ensures var c := p.Value();
            && c.CaCertificate == p.CaCertificate && c.CaPrivateKey == p.CaPrivateKey
            && c.APIServerCertificate == p.APIServerCertificate && c.APIServerPrivateKey == p.APIServerPrivateKey
            && c.ClientCertificate == p.ClientCertificate && c.ClientPrivateKey == p.ClientPrivateKey
            && c.KubeConfigCertificate == p.KubeConfigCertificate && c.KubeConfigPrivateKey == p.KubeConfigPrivateKey
            && c.EtcdServerCertificate == p.EtcdServerCertificate && c.EtcdServerPrivateKey == p.EtcdServerPrivateKey
            && c.EtcdClientCertificate == p.EtcdClientCertificate && c.EtcdClientPrivateKey == p.EtcdClientPrivateKey
            && c.EtcdPeerCertificates == p.EtcdPeerCertificates[..]
            && c.EtcdPeerPrivateKeys == p.EtcdPeerPrivateKeys[..]
  {
  }

  lemma ModelFields(cluster: ContainerService)
    ensures var m := cluster.Model();
            && m.Name == cluster.Name && m.Location == cluster.Location
            && m.OrchestratorVersion == cluster.OrchestratorVersion && m.Pools == cluster.AgentPoolProfiles[..]
            && m.Tags == cluster.Tags && m.DNSPrefix == cluster.DNSPrefix && m.VaultID == cluster.VaultID
            && m.SecretName == cluster.SecretName
  {
  }
}
