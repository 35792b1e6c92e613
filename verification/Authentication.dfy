/** The checks on the data a client authenticates with (internal/operations/auth.go), in the form of satori/go.uuid. */
module Authentication {
  import opened Results
  import opened Text
  import opened ResourceIDs
  import opened Clusters
  import opened Handover
  import opened Environment
  import opened KeyVaults

  // ---- UUIDs ----

  const URN_PREFIX: Bytes := "urn:uuid:"

  predicate AllHex(s: Bytes) {
    forall i :: 0 <= i < |s| ==> IsHex(s[i])
  }

  predicate Canonical(t: Bytes)
    requires |t| == 36
  {
    && t[8] == '-' && t[13] == '-' && t[18] == '-' && t[23] == '-'
    && AllHex(t[..8]) && AllHex(t[9..13]) && AllHex(t[14..18]) && AllHex(t[19..23]) && AllHex(t[24..])
  }

  /** The digits of a UUID with or without dashes. */
  function PlainDigits(t: Bytes): Option<Bytes> {
    if |t| == 32 && AllHex(t) then Some(t)
    else if |t| == 36 && Canonical(t) then Some(t[..8] + t[9..13] + t[14..18] + t[19..23] + t[24..])
    else None
  }

  /** uuid.FromString: plain, in braces with dashes, or as a URN. */
  function UUIDDigits(t: Bytes): Option<Bytes> {
    if |t| == 38 && t[0] == '{' && t[37] == '}' then PlainDigits(t[1..37])
    else if (|t| == 41 || |t| == 45) && URN_PREFIX <= t then PlainDigits(t[9..])
    else PlainDigits(t)
  }

  /** A UUID other than the one of zeros. */
  predicate IsProperUUID(t: Bytes) {
    match UUIDDigits(t)
    case None => false
    case Some(digits) => exists i :: 0 <= i < |digits| && digits[i] != '0'
  }

  // ---- the service principal ----

  /** The service principal's secret, kept in the vault under the name that the model gives. */
  function ClientSecret(vaults: Vaults, m: ApiModel): Option<Bytes> {
    match VaultOf(m.VaultID)
    case None => None
    case Some(k) => if k in vaults && m.SecretName in vaults[k] then Some(vaults[k][m.SecretName]) else None
  }

  /** ValidateAuthArgs, for the subscription of the cluster and the service principal. */
  predicate Authorized(m: ApiModel, azureID: Bytes, secret: Bytes) {
    match Parse(azureID)
    case Failure(_) => false
    case Success(id) => IsProperUUID(id.SubscriptionID) && IsProperUUID(m.Rest.ClientID) && secret != []
  }

  /** A client for the cluster can be set up. */
  predicate ClientReady(vaults: Vaults, azureID: Bytes, m: ApiModel) {
    match ClientSecret(vaults, m)
    case None => false
    case Some(secret) => Authorized(m, azureID, secret)
  }

  method GetClientSecret(c: ArmClient, cluster: ContainerService, ghost m: ApiModel) returns (r: Result<Bytes, Error>)
    requires m == cluster.Model()
    ensures r.Success? ==> ClientSecret(c.vaults, m) == Some(r.value)
    ensures c.reliable && ClientSecret(c.vaults, m).Some? ==> r.Success?
  {
    hide VaultOf;
    r := GetSecretFromKeyVault(c, cluster.VaultID, cluster.SecretName);
  }
}
