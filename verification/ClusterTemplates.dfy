/**
 Template generation as far as it touches the cluster (acsengine/cluster_templates.go): it makes the
 certificates that are missing.  Which ones those are is decided by acs-engine's setDefaultCerts
 (vendor/github.com/Azure/acs-engine/pkg/acsengine/defaults.go), for five groups of certificates.
 */
module ClusterTemplates {
  import opened Results
  import opened Text
  import opened Certificates
  import opened Clusters
  import opened Handover
  import opened Environment

  // ---- which certificates are there ----

  predicate HasCA(c: Certs) {
    c.CaCertificate != [] && c.CaPrivateKey != []
  }

  predicate HasAPIServer(c: Certs) {
    c.APIServerCertificate != [] && c.APIServerPrivateKey != []
  }

  predicate HasClient(c: Certs) {
    c.ClientCertificate != [] && c.ClientPrivateKey != []
  }

  predicate HasKubeConfig(c: Certs) {
    c.KubeConfigCertificate != [] && c.KubeConfigPrivateKey != []
  }

  /** One filled certificate and key for every master. */
  predicate HasPeers(certificates: seq<Bytes>, keys: seq<Bytes>, masters: nat) {
    && |certificates| == |keys| == masters
    && forall i :: 0 <= i < masters ==> certificates[i] != [] && keys[i] != []
  }

  predicate HasEtcd(c: Certs, masters: nat) {
    && HasPeers(c.EtcdPeerCertificates, c.EtcdPeerPrivateKeys, masters)
    && c.EtcdServerCertificate != [] && c.EtcdServerPrivateKey != []
    && c.EtcdClientCertificate != [] && c.EtcdClientPrivateKey != []
  }

  predicate Complete(c: Certs, masters: nat) {
    HasCA(c) && HasAPIServer(c) && HasClient(c) && HasKubeConfig(c) && HasEtcd(c, masters)
  }

  // ---- what generation makes of them ----

  /** A missing CA pair comes first. */
  function WithCA(c: Certs, generated: Certs): Certs {
    if HasCA(c) then c
    else c.(CaCertificate := generated.CaCertificate, CaPrivateKey := generated.CaPrivateKey)
  }

  /** A group that is missing is replaced by a new one; without a CA pair, so is every group. */
  function Generated(c: Certs, generated: Certs, masters: nat): Certs {
    var c1 := WithCA(c, generated);
    var c2 := if HasCA(c) && HasAPIServer(c) then c1
              else c1.(APIServerCertificate := generated.APIServerCertificate,
                       APIServerPrivateKey := generated.APIServerPrivateKey);
    var c3 := if HasCA(c) && HasClient(c) then c2
              else c2.(ClientCertificate := generated.ClientCertificate,
                       ClientPrivateKey := generated.ClientPrivateKey);
    var c4 := if HasCA(c) && HasKubeConfig(c) then c3
              else c3.(KubeConfigCertificate := generated.KubeConfigCertificate,
                       KubeConfigPrivateKey := generated.KubeConfigPrivateKey);
    if HasCA(c) && HasEtcd(c, masters) then c4
    else c4.(EtcdServerCertificate := generated.EtcdServerCertificate,
             EtcdServerPrivateKey := generated.EtcdServerPrivateKey,
             EtcdClientCertificate := generated.EtcdClientCertificate,
             EtcdClientPrivateKey := generated.EtcdClientPrivateKey,
             EtcdPeerCertificates := generated.EtcdPeerCertificates,
             EtcdPeerPrivateKeys := generated.EtcdPeerPrivateKeys)
  }

  /** What a generation that fails may leave behind: nothing new, a CA pair, or everything. */
  predicate PartlyGenerated(c: Certs, generated: Certs, masters: nat, c': Certs) {
    c' == c || c' == WithCA(c, generated) || c' == Generated(c, generated, masters)
  }

  /** After generation the profile is complete. */
  lemma GeneratedComplete(c: Certs, generated: Certs, masters: nat)
    requires Complete(generated, masters)
    ensures Complete(Generated(c, generated, masters), masters)
  {
    hide HasPeers;
  }

  /** Generation leaves a complete profile alone, so that a second one does nothing. */
  lemma GeneratedNothing(c: Certs, generated: Certs, masters: nat)
    requires Complete(c, masters)
    ensures Generated(c, generated, masters) == c
  {
  }

  /** The references to a complete profile are a complete profile, so that no generation replaces them. */
  lemma ReferencesComplete(c: Certs, vaultID: Bytes, dnsPrefix: Bytes, masters: nat)
    requires Complete(c, masters)
    ensures Complete(References(c, vaultID, dnsPrefix), masters)
  {
    forall s: Slot
      ensures Reference(s, vaultID, dnsPrefix) != []
    {
      ReferenceFilled(s, vaultID, dnsPrefix);
    }
  }

  lemma ReferenceFilled(s: Slot, vaultID: Bytes, dnsPrefix: Bytes)
    ensures Reference(s, vaultID, dnsPrefix) != []
  {
  }

  /** A profile is complete if every field is filled and every master has a peer certificate and key. */
  lemma CompleteIff(c: Certs, masters: nat)
    ensures Complete(c, masters) <==>
              && |c.EtcdPeerCertificates| == |c.EtcdPeerPrivateKeys| == masters
              && forall s :: HasSlot(c, s) ==> Field(c, s) != []
  {
    if |c.EtcdPeerCertificates| == |c.EtcdPeerPrivateKeys| == masters
       && forall s :: HasSlot(c, s) ==> Field(c, s) != [] {
      FilledGroups(c, masters);
    }
  }

  lemma FilledGroups(c: Certs, masters: nat)
    requires |c.EtcdPeerCertificates| == |c.EtcdPeerPrivateKeys| == masters
    requires forall s :: HasSlot(c, s) ==> Field(c, s) != []
    ensures Complete(c, masters)
  {
    assert Field(c, CaCrt) != [] && Field(c, CaKey) != [];
    assert Field(c, APIServerCrt) != [] && Field(c, APIServerKey) != [];
    assert Field(c, ClientCrt) != [] && Field(c, ClientKey) != [];
    assert Field(c, KubeConfigCrt) != [] && Field(c, KubeConfigKey) != [];
    assert Field(c, EtcdServerCrt) != [] && Field(c, EtcdServerKey) != [];
    assert Field(c, EtcdClientCrt) != [] && Field(c, EtcdClientKey) != [];
    forall i | 0 <= i < masters
      ensures c.EtcdPeerCertificates[i] != [] && c.EtcdPeerPrivateKeys[i] != []
    {
      assert Field(c, PeerCrt(i)) != [] && Field(c, PeerKey(i)) != [];
    }
  }

  /** The two fields are filled. */
  predicate Pair(c: Certs, crt: Slot, key: Slot)
    requires HasSlot(c, crt) && HasSlot(c, key)
  {
    Field(c, crt) != [] && Field(c, key) != []
  }

  /** The pair is c's if that has it and the CA pair, and the generated one otherwise. */
  ghost predicate PairFrom(c: Certs, generated: Certs, c': Certs, crt: Slot, key: Slot)
    requires !crt.PeerCrt? && !crt.PeerKey? && !key.PeerCrt? && !key.PeerKey?
  {
    var from := if Pair(c, CaCrt, CaKey) && Pair(c, crt, key) then c else generated;
    Field(c', crt) == Field(from, crt) && Field(c', key) == Field(from, key)
  }

  /** Every pair is kept or replaced as a whole; none is kept without the CA that signed it. */
  lemma GeneratedPairs(c: Certs, generated: Certs, masters: nat)
    ensures var c' := Generated(c, generated, masters);
            && PairFrom(c, generated, c', CaCrt, CaKey) && PairFrom(c, generated, c', APIServerCrt, APIServerKey)
            && PairFrom(c, generated, c', ClientCrt, ClientKey)
            && PairFrom(c, generated, c', KubeConfigCrt, KubeConfigKey)
  {
  }

  /** Both fields of the pair are those of one of the two profiles. */
  ghost predicate PairOfOne(c: Certs, generated: Certs, c': Certs, crt: Slot, key: Slot)
    requires !crt.PeerCrt? && !crt.PeerKey? && !key.PeerCrt? && !key.PeerKey?
  {
    || (Field(c', crt) == Field(c, crt) && Field(c', key) == Field(c, key))
    || (Field(c', crt) == Field(generated, crt) && Field(c', key) == Field(generated, key))
  }

  lemma PeersFilled(c: Certs, masters: nat)
    requires |c.EtcdPeerCertificates| == |c.EtcdPeerPrivateKeys| == masters
    ensures HasPeers(c.EtcdPeerCertificates, c.EtcdPeerPrivateKeys, masters) <==>
              forall i: nat :: i < masters ==> Pair(c, PeerCrt(i), PeerKey(i))
  {
    if forall i: nat :: i < masters ==> Pair(c, PeerCrt(i), PeerKey(i)) {
      forall i | 0 <= i < masters
        ensures c.EtcdPeerCertificates[i] != [] && c.EtcdPeerPrivateKeys[i] != []
      {
        assert Pair(c, PeerCrt(i), PeerKey(i));
      }
    }
  }

  /** The certificates of etcd are kept or replaced all together. */
  lemma GeneratedEtcd(c: Certs, generated: Certs, masters: nat)
    ensures var c' := Generated(c, generated, masters);
            var keep := && Pair(c, CaCrt, CaKey) && Pair(c, EtcdServerCrt, EtcdServerKey)
                        && Pair(c, EtcdClientCrt, EtcdClientKey)
                        && |c.EtcdPeerCertificates| == |c.EtcdPeerPrivateKeys| == masters
                        && forall i: nat :: i < masters ==> Pair(c, PeerCrt(i), PeerKey(i));
            var from := if keep then c else generated;
            && c'.EtcdServerCertificate == from.EtcdServerCertificate
            && c'.EtcdServerPrivateKey == from.EtcdServerPrivateKey
            && c'.EtcdClientCertificate == from.EtcdClientCertificate
            && c'.EtcdClientPrivateKey == from.EtcdClientPrivateKey
            && c'.EtcdPeerCertificates == from.EtcdPeerCertificates
            && c'.EtcdPeerPrivateKeys == from.EtcdPeerPrivateKeys
  {
    if |c.EtcdPeerCertificates| == |c.EtcdPeerPrivateKeys| == masters {
      PeersFilled(c, masters);
    }
  }

  /** A failure mixes no pairs, and where it leaves anything but the CA changed, it leaves everything generated. */
  lemma PartlyGeneratedPairs(c: Certs, generated: Certs, masters: nat, c': Certs)
    requires PartlyGenerated(c, generated, masters, c')
    ensures PairOfOne(c, generated, c', CaCrt, CaKey) && PairOfOne(c, generated, c', APIServerCrt, APIServerKey)
    ensures PairOfOne(c, generated, c', ClientCrt, ClientKey)
    ensures PairOfOne(c, generated, c', KubeConfigCrt, KubeConfigKey)
    ensures PairOfOne(c, generated, c', EtcdServerCrt, EtcdServerKey)
    ensures PairOfOne(c, generated, c', EtcdClientCrt, EtcdClientKey)
    ensures || c' == c.(CaCertificate := c'.CaCertificate, CaPrivateKey := c'.CaPrivateKey)
            || c' == Generated(c, generated, masters)
  {
    hide Generated;
    if c' == Generated(c, generated, masters) {
      GeneratedPairs(c, generated, masters);
      GeneratedEtcd(c, generated, masters);
    }
  }

  lemma SomeComplete(masters: nat) returns (c: Certs)
    ensures Complete(c, masters)
  {
    var b: Bytes := ['x'];
    c := Certs(b, b, b, b, b, b, b, b, b, b, b, b, seq(masters, _ => b), seq(masters, _ => b));
  }

  // ---- the model ----

  /** The model's certificates are all there. */
  predicate CompleteModel(m: ApiModel) {
    Complete(m.Certificates, m.Rest.MasterCount)
  }

  /**
   What m becomes by template generation: itself if it is complete, and otherwise itself with
   certificates filled in.
   */
  predicate Filled(m: ApiModel, m': ApiModel) {
    SameButCertificates(m, m') && CompleteModel(m') && (CompleteModel(m) ==> m' == m)
  }

  function WithGenerated(m: ApiModel, generated: Certs): ApiModel {
    m.(Certificates := Generated(m.Certificates, generated, m.Rest.MasterCount))
  }

  lemma GeneratedFilled(m: ApiModel, generated: Certs)
    requires Complete(generated, m.Rest.MasterCount)
    ensures Filled(m, WithGenerated(m, generated))
  {
    GeneratedComplete(m.Certificates, generated, m.Rest.MasterCount);
    if CompleteModel(m) { GeneratedNothing(m.Certificates, generated, m.Rest.MasterCount); }
  }

  /** formatTemplates, which reports whether it generated certificates. */
  method FormatTemplates(c: ArmClient, cluster: ContainerService, ghost m: ApiModel)
    returns (r: Result<bool, Error>, ghost generated: Certs)
    requires cluster.Valid() && m == cluster.Model()
    modifies cluster`CertificateProfile
    ensures cluster.Valid() && Complete(generated, m.Rest.MasterCount)
    ensures SameButCertificates(m, cluster.Model())
    ensures if r.Success? then cluster.Model() == WithGenerated(m, generated)
            else PartlyGenerated(m.Certificates, generated, m.Rest.MasterCount, cluster.Model().Certificates)
    ensures r.Success? ==> r.value == !CompleteModel(m)
    ensures if CompleteModel(m) then cluster.CertificateProfile == old(cluster.CertificateProfile)
            else fresh(cluster.CertificateProfile) && fresh(cluster.CertificateProfile.EtcdPeerCertificates)
                 && fresh(cluster.CertificateProfile.EtcdPeerPrivateKeys)
    ensures c.reliable ==> r.Success?
  {
    var masters := cluster.Rest.MasterCount;
    ghost var some := SomeComplete(masters);
    var certs: Certs :| Complete(certs, masters);
    generated := certs;
    var ok := c.Succeeds();
    var current := cluster.CertificateProfile.Value();
    if Complete(current, masters) {
      GeneratedNothing(current, certs, masters);
      r := if ok then Success(false) else Failure(TemplatesFailed);
    } else {
      var stage := Generated(current, certs, masters);
      if !ok {
        assert PartlyGenerated(current, certs, masters, current);
        stage :| PartlyGenerated(current, certs, masters, stage);
      }
      cluster.CertificateProfile := new CertificateProfile(stage);
      r := if ok then Success(true) else Failure(TemplatesFailed);
    }
  }
}
