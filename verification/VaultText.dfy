/** Vaults, secrets and references with their names and IDs written out. */
module VaultText {
  import opened Results
  import opened Text
  import opened Base64
  import opened ResourceIDs
  import opened ResourceIDFormat
  import opened ResourceIDText
  import opened Certificates
  import opened Clusters
  import opened Handover
  import opened KeyVaults
  import opened Authentication

  // ---- which vault an ID designates ----

  /** The vault is looked for under the resource group of the ID, by the name after "vaults". */
  lemma VaultOfPrinted(r: ResourceID, order: seq<Bytes>)
    requires Printable(r, order)
    ensures VaultOf(Print(r, order)).Some? <==> "vaults" in r.Path
    ensures "vaults" in r.Path ==>
              && VaultOf(Print(r, order)).value.resourceGroup == r.ResourceGroup
              && VaultOf(Print(r, order)).value.name == r.Path["vaults"]
  {
    hide Parse, Print, Printable;
    ParsePrint(r, order);
  }

  lemma VaultOfID()
    ensures VaultOf(VAULT_ID) == Some(VaultKey("g", "v"))
  {
    hide Parse;
    VaultIDParses();
  }

  // ---- names and references ----

  lemma PeerNamesListed(i: nat, dnsPrefix: Bytes)
    ensures SlotSecret(PeerCrt(i), dnsPrefix) == dnsPrefix + "-" + ("etcdpeer" + Decimal(i) + "crt")
    ensures SlotSecret(PeerKey(i), dnsPrefix) == dnsPrefix + "-" + ("etcdpeer" + Decimal(i) + "key")
  {
  }

  lemma NamesListed(dnsPrefix: Bytes)
    ensures SlotSecret(CaCrt, dnsPrefix) == dnsPrefix + "-" + "cacrt"
    ensures SlotSecret(CaKey, dnsPrefix) == dnsPrefix + "-" + "cakey"
    ensures SlotSecret(APIServerCrt, dnsPrefix) == dnsPrefix + "-" + "apiservercrt"
    ensures SlotSecret(APIServerKey, dnsPrefix) == dnsPrefix + "-" + "apiserverkey"
    ensures SlotSecret(ClientCrt, dnsPrefix) == dnsPrefix + "-" + "clientcrt"
    ensures SlotSecret(ClientKey, dnsPrefix) == dnsPrefix + "-" + "clientkey"
    ensures SlotSecret(KubeConfigCrt, dnsPrefix) == dnsPrefix + "-" + "kubeconfigcrt"
    ensures SlotSecret(KubeConfigKey, dnsPrefix) == dnsPrefix + "-" + "kubeconfigkey"
    ensures SlotSecret(EtcdServerCrt, dnsPrefix) == dnsPrefix + "-" + "etcdservercrt"
    ensures SlotSecret(EtcdServerKey, dnsPrefix) == dnsPrefix + "-" + "etcdserverkey"
    ensures SlotSecret(EtcdClientCrt, dnsPrefix) == dnsPrefix + "-" + "etcdclientcrt"
    ensures SlotSecret(EtcdClientKey, dnsPrefix) == dnsPrefix + "-" + "etcdclientkey"
  {
  }

  /** v holds the value under that name. */
  predicate Holds(v: Vault, dnsPrefix: Bytes, name: Bytes, value: Bytes) {
    dnsPrefix + "-" + name in v && v[dnsPrefix + "-" + name] == Base64Encode(value)
  }

  lemma SlotHeld(v: Vault, c: Certs, dnsPrefix: Bytes, s: Slot)
    requires HasSlot(c, s)
    ensures var w := Written(v, c, dnsPrefix, WriteOrder(c));
            SlotSecret(s, dnsPrefix) in w && w[SlotSecret(s, dnsPrefix)] == Base64Encode(Field(c, s))
  {
    hide Written, SlotSecret, Field, Base64Encode;
    var n := SlotPosition(c, s);
    WrittenLookup(v, c, dnsPrefix, WriteOrder(c), n);
  }

  /** After the handover every certificate and key is in the vault under its name. */
  lemma CertificatesHeld(v: Vault, c: Certs, p: Bytes)
    ensures var w := Written(v, c, p, WriteOrder(c));
            && Holds(w, p, "cacrt", c.CaCertificate) && Holds(w, p, "cakey", c.CaPrivateKey)
            && Holds(w, p, "apiservercrt", c.APIServerCertificate) && Holds(w, p, "apiserverkey", c.APIServerPrivateKey)
            && Holds(w, p, "clientcrt", c.ClientCertificate) && Holds(w, p, "clientkey", c.ClientPrivateKey)
            && Holds(w, p, "kubeconfigcrt", c.KubeConfigCertificate)
            && Holds(w, p, "kubeconfigkey", c.KubeConfigPrivateKey)
  {
    hide SlotSecret, Written, WriteOrder, Base64Encode;
    NamesListed(p);
    SlotHeld(v, c, p, CaCrt);
    SlotHeld(v, c, p, CaKey);
    SlotHeld(v, c, p, APIServerCrt);
    SlotHeld(v, c, p, APIServerKey);
    SlotHeld(v, c, p, ClientCrt);
    SlotHeld(v, c, p, ClientKey);
    SlotHeld(v, c, p, KubeConfigCrt);
    SlotHeld(v, c, p, KubeConfigKey);
  }

  lemma EtcdHeld(v: Vault, c: Certs, p: Bytes)
    ensures var w := Written(v, c, p, WriteOrder(c));
            && Holds(w, p, "etcdservercrt", c.EtcdServerCertificate)
            && Holds(w, p, "etcdserverkey", c.EtcdServerPrivateKey)
            && Holds(w, p, "etcdclientcrt", c.EtcdClientCertificate)
            && Holds(w, p, "etcdclientkey", c.EtcdClientPrivateKey)
  {
    hide SlotSecret, Written, WriteOrder, Base64Encode;
    NamesListed(p);
    SlotHeld(v, c, p, EtcdServerCrt);
    SlotHeld(v, c, p, EtcdServerKey);
    SlotHeld(v, c, p, EtcdClientCrt);
    SlotHeld(v, c, p, EtcdClientKey);
  }

  lemma PeersHeld(v: Vault, c: Certs, p: Bytes, i: nat)
    ensures var w := Written(v, c, p, WriteOrder(c));
            && (i < |c.EtcdPeerCertificates| ==>
                  Holds(w, p, "etcdpeer" + Decimal(i) + "crt", c.EtcdPeerCertificates[i]))
            && (i < |c.EtcdPeerPrivateKeys| ==>
                  Holds(w, p, "etcdpeer" + Decimal(i) + "key", c.EtcdPeerPrivateKeys[i]))
  {
    hide SlotSecret, Written, WriteOrder, Base64Encode;
    PeerNamesListed(i, p);
    if i < |c.EtcdPeerCertificates| {
      SlotHeld(v, c, p, PeerCrt(i));
    }
    if i < |c.EtcdPeerPrivateKeys| {
      SlotHeld(v, c, p, PeerKey(i));
    }
  }

  /** The text of a reference. */
  function RefText(vaultID: Bytes, p: Bytes, name: Bytes): Bytes {
    vaultID + "/secrets/" + (p + "-" + name)
  }

  /** Every field refers to its own secret. */
  lemma ReferencesListed(c: Certs, vaultID: Bytes, p: Bytes)
    ensures var r := References(c, vaultID, p);
            && r.CaCertificate == RefText(vaultID, p, "cacrt") && r.CaPrivateKey == RefText(vaultID, p, "cakey")
            && r.APIServerCertificate == RefText(vaultID, p, "apiservercrt")
            && r.APIServerPrivateKey == RefText(vaultID, p, "apiserverkey")
            && r.ClientCertificate == RefText(vaultID, p, "clientcrt")
            && r.ClientPrivateKey == RefText(vaultID, p, "clientkey")
            && r.KubeConfigCertificate == RefText(vaultID, p, "kubeconfigcrt")
            && r.KubeConfigPrivateKey == RefText(vaultID, p, "kubeconfigkey")
  {
  }

  lemma EtcdReferencesListed(c: Certs, vaultID: Bytes, p: Bytes)
    ensures var r := References(c, vaultID, p);
            && r.EtcdServerCertificate == RefText(vaultID, p, "etcdservercrt")
            && r.EtcdServerPrivateKey == RefText(vaultID, p, "etcdserverkey")
            && r.EtcdClientCertificate == RefText(vaultID, p, "etcdclientcrt")
            && r.EtcdClientPrivateKey == RefText(vaultID, p, "etcdclientkey")
  {
  }

  lemma PeerReferenceText(i: nat, vaultID: Bytes, p: Bytes)
    ensures Reference(PeerCrt(i), vaultID, p) == RefText(vaultID, p, "etcdpeer" + Decimal(i) + "crt")
    ensures Reference(PeerKey(i), vaultID, p) == RefText(vaultID, p, "etcdpeer" + Decimal(i) + "key")
  {
    hide Decimal;
  }

  lemma PeerReferencesListed(c: Certs, vaultID: Bytes, p: Bytes, i: nat)
    requires i < |c.EtcdPeerCertificates|
    ensures |References(c, vaultID, p).EtcdPeerCertificates| == |c.EtcdPeerCertificates|
    ensures References(c, vaultID, p).EtcdPeerCertificates[i]
            == RefText(vaultID, p, "etcdpeer" + Decimal(i) + "crt")
    ensures |References(c, vaultID, p).EtcdPeerPrivateKeys| == |c.EtcdPeerPrivateKeys|
    ensures i < |c.EtcdPeerPrivateKeys| ==>
              References(c, vaultID, p).EtcdPeerPrivateKeys[i]
              == RefText(vaultID, p, "etcdpeer" + Decimal(i) + "key")
  {
    hide Reference, Decimal, RefText;
    PeerReferenceText(i, vaultID, p);
  }

  /** A kube config is made with three secrets, decoded. */
  lemma FetchedListed(c: Certs, v: Vault, p: Bytes)
    requires HasThree(v, p)
    ensures p + "-" + "cacrt" in v && p + "-" + "kubeconfigcrt" in v && p + "-" + "kubeconfigkey" in v
    ensures Fetched(c, v, p) == c.(CaCertificate := Base64Decode(v[p + "-" + "cacrt"]),
                                   KubeConfigCertificate := Base64Decode(v[p + "-" + "kubeconfigcrt"]),
                                   KubeConfigPrivateKey := Base64Decode(v[p + "-" + "kubeconfigkey"]))
  {
    hide SlotSecret, Base64Decode;
    NamesListed(p);
  }

  // ---- one vault ----

  lemma VaultIDAppendable()
    ensures Appendable(VAULT_ID) && SECRETS !in VAULT_RECORD.Path
  {
    hide Printable, Print;
    VaultRecordPrintable();
    VaultIDPrinted();
    PrintedPath(VAULT_RECORD, ["vaults"]);
  }

  /** A printed ID is its own path. */
  lemma PrintedPath(r: ResourceID, order: seq<Bytes>)
    requires Printable(r, order)
    ensures RequestPath(Print(r, order)) == Some(Print(r, order)) && '?' !in Print(r, order)
  {
    hide Join;
    PrintedSegmentsPlain(r, order);
    JoinPlain(PrintedSegments(r, order));
    SegmentsOfJoin(PrintedSegments(r, order));
  }

  /** A reference made from the vault's ID designates the secret of that name in vault v of group g. */
  lemma DereferencesIn(vaults: Vaults, name: Bytes)
    requires VaultKey("g", "v") in vaults && PlainName(name)
    ensures var v := vaults[VaultKey("g", "v")];
            Dereference(vaults, VAULT_ID + "/secrets/" + name) == if name in v then Some(v[name]) else None
  {
    hide Parse, PlainName, Appendable;
    VaultIDParses();
    VaultIDAppendable();
    SecretReferenceIff(VAULT_ID, name);
    assert SecretReference(VAULT_ID, name) == VAULT_ID + "/secrets/" + name;
    assert VAULTS != SECRETS;
  }

  /** The service principal's secret is read under the secret name of the model, and no other. */
  lemma ClientSecretNamed(m: ApiModel, name: Bytes, secret: Bytes)
    requires m.VaultID == VAULT_ID
    ensures ClientSecret(map[VaultKey("g", "v") := map[name := secret]], m)
            == if m.SecretName == name then Some(secret) else None
  {
    hide VaultOf;
    VaultOfID();
  }
}
