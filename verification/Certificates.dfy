/**
 Certificate profiles, the names their secrets get in a key vault, and the references that
 replace them (acsengine/key_vault.go).
 */
module Certificates {
  import opened Text
  import opened Base64
  import opened ResourceIDs
  import opened ResourceIDFormat

  /** The value of an api.CertificateProfile. */
  datatype Certs = Certs(
    CaCertificate: Bytes, CaPrivateKey: Bytes,
    APIServerCertificate: Bytes, APIServerPrivateKey: Bytes,
    ClientCertificate: Bytes, ClientPrivateKey: Bytes,
    KubeConfigCertificate: Bytes, KubeConfigPrivateKey: Bytes,
    EtcdServerCertificate: Bytes, EtcdServerPrivateKey: Bytes,
    EtcdClientCertificate: Bytes, EtcdClientPrivateKey: Bytes,
    EtcdPeerCertificates: seq<Bytes>, EtcdPeerPrivateKeys: seq<Bytes>)

  /** One field of a profile, or one element of its peer arrays. */
  datatype Slot =
    | CaCrt | CaKey | APIServerCrt | APIServerKey | ClientCrt | ClientKey | KubeConfigCrt | KubeConfigKey
    | EtcdServerCrt | EtcdServerKey | EtcdClientCrt | EtcdClientKey
    | PeerCrt(i: nat) | PeerKey(i: nat)

  predicate HasSlot(c: Certs, s: Slot) {
    match s
    case PeerCrt(i) => i < |c.EtcdPeerCertificates|
    case PeerKey(i) => i < |c.EtcdPeerPrivateKeys|
    case _ => true
  }

  function Field(c: Certs, s: Slot): Bytes
    requires HasSlot(c, s)
  {
    match s
    case CaCrt => c.CaCertificate
    case CaKey => c.CaPrivateKey
    case APIServerCrt => c.APIServerCertificate
    case APIServerKey => c.APIServerPrivateKey
    case ClientCrt => c.ClientCertificate
    case ClientKey => c.ClientPrivateKey
    case KubeConfigCrt => c.KubeConfigCertificate
    case KubeConfigKey => c.KubeConfigPrivateKey
    case EtcdServerCrt => c.EtcdServerCertificate
    case EtcdServerKey => c.EtcdServerPrivateKey
    case EtcdClientCrt => c.EtcdClientCertificate
    case EtcdClientKey => c.EtcdClientPrivateKey
    case PeerCrt(i) => c.EtcdPeerCertificates[i]
    case PeerKey(i) => c.EtcdPeerPrivateKeys[i]
  }

  // ---- names ----

  const CA_CRT: Bytes := "cacrt"
  const CA_KEY: Bytes := "cakey"
  const API_SERVER_CRT: Bytes := "apiservercrt"
  const API_SERVER_KEY: Bytes := "apiserverkey"
  const CLIENT_CRT: Bytes := "clientcrt"
  const CLIENT_KEY: Bytes := "clientkey"
  const KUBE_CONFIG_CRT: Bytes := "kubeconfigcrt"
  const KUBE_CONFIG_KEY: Bytes := "kubeconfigkey"
  const ETCD_SERVER_CRT: Bytes := "etcdservercrt"
  const ETCD_SERVER_KEY: Bytes := "etcdserverkey"
  const ETCD_CLIENT_CRT: Bytes := "etcdclientcrt"
  const ETCD_CLIENT_KEY: Bytes := "etcdclientkey"
  const ETCD_PEER: Bytes := "etcdpeer"
  const CRT: Bytes := "crt"
  const KEY: Bytes := "key"

  function CertificateName(s: Slot): Bytes {
    match s
    case CaCrt => CA_CRT
    case CaKey => CA_KEY
    case APIServerCrt => API_SERVER_CRT
    case APIServerKey => API_SERVER_KEY
    case ClientCrt => CLIENT_CRT
    case ClientKey => CLIENT_KEY
    case KubeConfigCrt => KUBE_CONFIG_CRT
    case KubeConfigKey => KUBE_CONFIG_KEY
    case EtcdServerCrt => ETCD_SERVER_CRT
    case EtcdServerKey => ETCD_SERVER_KEY
    case EtcdClientCrt => ETCD_CLIENT_CRT
    case EtcdClientKey => ETCD_CLIENT_KEY
    case PeerCrt(i) => ETCD_PEER + Decimal(i) + CRT
    case PeerKey(i) => ETCD_PEER + Decimal(i) + KEY
  }

  function SecretName(name: Bytes, dnsPrefix: Bytes): Bytes {
    dnsPrefix + ['-'] + name
  }

  function VaultSecretRefName(name: Bytes, vaultID: Bytes, dnsPrefix: Bytes): Bytes {
    vaultID + SLASH_SECRETS_SLASH + SecretName(name, dnsPrefix)
  }

  predicate NoDash(s: Bytes) {
    forall i :: 0 <= i < |s| ==> s[i] != '-'
  }

  predicate LowerAlphanumeric(s: Bytes) {
    forall i :: 0 <= i < |s| ==> 'a' <= s[i] <= 'z' || '0' <= s[i] <= '9'
  }

  lemma NamesLowerAlphanumeric(s: Slot)
    ensures CertificateName(s) != [] && LowerAlphanumeric(CertificateName(s))
  {
    match s
    case PeerCrt(i) => PeerNameLowerAlphanumeric(i, CRT);
    case PeerKey(i) => PeerNameLowerAlphanumeric(i, KEY);
    case CaCrt =>
    case CaKey =>
    case APIServerCrt =>
    case APIServerKey =>
    case ClientCrt =>
    case ClientKey =>
    case KubeConfigCrt =>
    case KubeConfigKey =>
    case EtcdServerCrt =>
    case EtcdServerKey =>
    case EtcdClientCrt =>
    case EtcdClientKey =>
  }

  lemma PeerNameLowerAlphanumeric(i: nat, kind: Bytes)
    requires LowerAlphanumeric(kind)
    ensures LowerAlphanumeric(ETCD_PEER + Decimal(i) + kind)
  {
    var d := Decimal(i);
    assert forall j :: 0 <= j < |d| ==> d[j] in d;
    assert LowerAlphanumeric(ETCD_PEER);
  }

  lemma NameFacts(s: Slot)
    ensures NoDash(CertificateName(s)) && PlainName(CertificateName(s))
  {
    NamesLowerAlphanumeric(s);
  }

  lemma LastDash(p: Bytes, n: Bytes)
    requires NoDash(n)
    ensures var s := SecretName(n, p); s[|p|] == '-' && forall i :: |p| < i < |s| ==> s[i] != '-'
  {
    var s := SecretName(n, p);
    assert forall i :: |p| < i < |s| ==> s[i] == n[i - |p| - 1];
  }

  /** A prefix and a dash-free name can be told apart again. */
  lemma SplitAtLastDash(p: Bytes, n: Bytes, p': Bytes, n': Bytes)
    requires NoDash(n) && NoDash(n')
    requires SecretName(n, p) == SecretName(n', p')
    ensures p == p' && n == n'
  {
    var s := SecretName(n, p);
    LastDash(p, n);
    LastDash(p', n');
    assert |p| == |p'|;
    assert p == s[..|p|] == p';
    assert n == s[|p| + 1..] == n';
  }

  lemma PeerNamesInjective(a: Slot, b: Slot)
    requires (a.PeerCrt? || a.PeerKey?) && (b.PeerCrt? || b.PeerKey?)
    requires CertificateName(a) == CertificateName(b)
    ensures a == b
  {
    var s := CertificateName(a);
    assert s[|s| - 1] == 't' <==> a.PeerCrt?;
    assert CertificateName(b)[|s| - 1] == 't' <==> b.PeerCrt?;
    assert Decimal(a.i) == s[|ETCD_PEER|..|s| - 3] == Decimal(b.i);
    DecimalInjective(a.i, b.i);
  }

  lemma PeerNameDigit(s: Slot)
    requires s.PeerCrt? || s.PeerKey?
    ensures |CertificateName(s)| > 8 && '0' <= CertificateName(s)[8] <= '9'
  {
    var d := Decimal(s.i);
    assert CertificateName(s)[8] == d[0];
    assert d[0] in d;
  }

  lemma FixedNameNoDigit(s: Slot)
    requires !s.PeerCrt? && !s.PeerKey?
    ensures |CertificateName(s)| > 8 ==> !('0' <= CertificateName(s)[8] <= '9')
  {
  }

  lemma FixedNamesInjective(a: Slot, b: Slot)
    requires !a.PeerCrt? && !a.PeerKey? && !b.PeerCrt? && !b.PeerKey?
    requires CertificateName(a) == CertificateName(b)
    ensures a == b
  {
    FixedNameCode(a);
    FixedNameCode(b);
  }

  /** Length, third and last byte of a fixed name, enough to tell the twelve apart. */
  lemma FixedNameCode(s: Slot)
    requires !s.PeerCrt? && !s.PeerKey?
    ensures var n := CertificateName(s);
            && |n| >= 5
            && (n[|n| - 1] == 't' <==> s in {CaCrt, APIServerCrt, ClientCrt, KubeConfigCrt, EtcdServerCrt,
                                             EtcdClientCrt})
            && (|n| == 5 <==> s in {CaCrt, CaKey})
            && (n[0] == 'a' <==> s in {APIServerCrt, APIServerKey})
            && (|n| == 9 <==> s in {ClientCrt, ClientKey})
            && (n[0] == 'k' <==> s in {KubeConfigCrt, KubeConfigKey})
            && (n[0] == 'e' && n[4] == 's' <==> s in {EtcdServerCrt, EtcdServerKey})
            && (n[0] == 'e' && n[4] == 'c' <==> s in {EtcdClientCrt, EtcdClientKey})
  {
  }

  lemma CertificateNamesInjective(a: Slot, b: Slot)
    requires CertificateName(a) == CertificateName(b)
    ensures a == b
  {
    var peerA, peerB := a.PeerCrt? || a.PeerKey?, b.PeerCrt? || b.PeerKey?;
    if peerA { PeerNameDigit(a); } else { FixedNameNoDigit(a); }
    if peerB { PeerNameDigit(b); } else { FixedNameNoDigit(b); }
    if peerA && peerB {
      PeerNamesInjective(a, b);
    } else if !peerA && !peerB {
      FixedNamesInjective(a, b);
    }
  }

  /** No two slots of any clusters share a secret name: the prefix and the slot can be read off it. */
  lemma SecretNamesInjective(p: Bytes, a: Slot, q: Bytes, b: Slot)
    requires SecretName(CertificateName(a), p) == SecretName(CertificateName(b), q)
    ensures p == q && a == b
  {
    NameFacts(a);
    NameFacts(b);
    SplitAtLastDash(p, CertificateName(a), q, CertificateName(b));
    CertificateNamesInjective(a, b);
  }
}
