/**
 The update of a cluster resource as a chain of read-modify-write steps on the stored API model:
 version, then the pools one by one, then tags (acsengine/resource_acsengine_kubernetes_cluster.go,
 acsengine/cluster_upgrade.go, internal/operations/upgrade_client.go, acsengine/tags.go).
 */
module ClusterUpdate {
  import opened Results
  import opened Text
  import opened ResourceIDs
  import opened Certificates
  import opened Clusters
  import opened Handover
  import opened Authentication
  import opened ClusterTemplates
  import opened Environment
  import opened AgentPools
  import opened TerraformState
  import opened Kubernetes
  import opened KeyVaults
  import opened ClusterScale

  // ---- upgrading ----

  class UpgradeClient {
    const ClientSecret: Bytes
    var ResourceGroupName: Bytes
    var Location: Bytes
    var Cluster: ContainerService?
    var UpgradeVersion: Bytes
    var AgentPoolsToUpgrade: seq<Bytes>

    constructor (secret: Bytes)
      ensures ClientSecret == secret && Cluster == null
    {
      ClientSecret := secret;
      ResourceGroupName, Location, UpgradeVersion, AgentPoolsToUpgrade, Cluster := [], [], [], [], null;
    }

    /** Writes the version through the shared cluster pointer and collects the names of all pools. */
    method SetUpgradeClient(c: ArmClient, cluster: ContainerService, azureID: Bytes, upgradeVersion: Bytes,
                            ghost m: ApiModel)
      returns (r: Outcome<Error>)
      requires m == cluster.Model()
      modifies this, cluster`OrchestratorVersion
      ensures r.Pass? ==> && Cluster == cluster && UpgradeVersion == upgradeVersion
                          && cluster.Model() == m.(OrchestratorVersion := upgradeVersion)
                          && |AgentPoolsToUpgrade| == |m.Pools|
                          && (forall i :: 0 <= i < |m.Pools| ==> AgentPoolsToUpgrade[i] == m.Pools[i].Name)
      ensures r.Pass? && Parse(azureID).Success? ==> ResourceGroupName == Parse(azureID).value.ResourceGroup
      ensures r.Fail? ==> cluster.Model() == m
      ensures r.Decided(c.reliable, Authorized(m, azureID, ClientSecret) && upgradeVersion != [] && m.Location != [])
    {
      hide Authorized, Parse;
      r := SetACSEngineClient(c, cluster, azureID, m);
      if r.Fail? { return; }
      UpgradeVersion := upgradeVersion;
      if Location == [] { return Fail(NoLocation); }
      if UpgradeVersion == [] { return Fail(NoVersion); }
      cluster.OrchestratorVersion := UpgradeVersion;
      AgentPoolsToUpgrade := PoolNamesToUpgrade(cluster);
    }

    /** SetACSEngineClient, with the checks of ValidateAuthArgs. */
    method SetACSEngineClient(c: ArmClient, cluster: ContainerService, azureID: Bytes, ghost m: ApiModel)
      returns (r: Outcome<Error>)
      requires m == cluster.Model()
      modifies `ResourceGroupName, `Location, `Cluster
      ensures r.Pass? ==> Cluster == cluster && Location == cluster.Location
      ensures r.Pass? && Parse(azureID).Success? ==> ResourceGroupName == Parse(azureID).value.ResourceGroup
      ensures r.Decided(c.reliable, Authorized(m, azureID, ClientSecret))
    {
      var id := ParseAzureResourceID(azureID);
      if id.Failure? { return Fail(BadID(id.error)); }
      ResourceGroupName := id.value.ResourceGroup;
      Location := cluster.Location;
      if !IsProperUUID(id.value.SubscriptionID) || !IsProperUUID(cluster.Rest.ClientID) || ClientSecret == [] {
        return Fail(BadCredentials);
      }
      var authorized := c.Succeeds();
      if !authorized { return Fail(ClientFailed); }
      Cluster := cluster;
      r := Pass;
    }

    method PoolNamesToUpgrade(cluster: ContainerService) returns (names: seq<Bytes>)
      ensures |names| == |cluster.Model().Pools|
      ensures forall i :: 0 <= i < |names| ==> names[i] == cluster.Model().Pools[i].Name
    {
      names := [];
      for i := 0 to cluster.AgentPoolProfiles.Length
        invariant |names| == i && forall j :: 0 <= j < i ==> names[j] == cluster.AgentPoolProfiles[j].Name
      {
        names := names + [cluster.AgentPoolProfiles[i].Name];
      }
    }
  }

  /** The stored model after a successful upgrade. */
  function Upgraded(m: ApiModel, version: Bytes): ApiModel {
    WithReferences(m.(OrchestratorVersion := version))
  }

  /** What an update does not change and its steps depend on. */
  datatype Services = Services(acs: AcsEngine, naming: Naming, paging: Paging, vaults: Vaults, id: Bytes,
                               reliable: bool)

  ghost function ServicesOf(c: ArmClient, d: ResourceData): Services
    reads c
  {
    Services(c.acs, c.naming, c.paging, c.vaults, d.id, c.reliable)
  }

  /** Nothing stands in the way of upgrading m. */
  ghost predicate ModelUpgradable(w: Services, m: ApiModel, version: Bytes) {
    && ClientReady(w.vaults, w.id, m) && m.Location != [] && version != []
    && KubeConfigReady(w.acs, w.vaults, m.(OrchestratorVersion := version))
  }

  ghost predicate CanUpgrade(w: Services, api: Bytes, version: Bytes) {
    match Stored(w.acs, api)
    case None => false
    case Some(m) => ModelUpgradable(w, m, version)
  }

  /** The stored model before and after a successful upgrade. */
  ghost predicate UpgradeSaved(acs: AcsEngine, api: Bytes, version: Bytes, api': Bytes) {
    match Stored(acs, api)
    case None => false
    case Some(m) => SavedAs(acs, api', Upgraded(m, version))
  }

  /** upgradeCluster: the version is written to the loaded model, which is stored only if the whole upgrade succeeds. */
  method UpgradeCluster(d: ResourceData, c: ArmClient, upgradeVersion: Bytes, ghost w: Services)
    returns (r: Outcome<Error>)
    requires c.acs.LoadsWhatItSaves() && w == ServicesOf(c, d)
    modifies d`apiModel, c`vms
    ensures if r.Pass? then UpgradeSaved(c.acs, old(d.apiModel), upgradeVersion, d.apiModel)
            else d.apiModel == old(d.apiModel)
    ensures r.Decided(c.reliable, CanUpgrade(w, old(d.apiModel), upgradeVersion))
  {
    hide ModelUpgradable, SavedAs, Upgraded;
    var loaded := d.LoadContainerService(c);
    if loaded.Failure? { return Fail(loaded.error); }
    r := UpgradeLoaded(d, c, loaded.value, upgradeVersion, loaded.value.Model(), w);
  }

  method UpgradeLoaded(d: ResourceData, c: ArmClient, cluster: ContainerService, upgradeVersion: Bytes,
                       ghost m: ApiModel, ghost w: Services)
    returns (r: Outcome<Error>)
    requires c.acs.LoadsWhatItSaves() && w == ServicesOf(c, d) && cluster.Valid() && m == cluster.Model()
    modifies d`apiModel, c`vms, cluster`OrchestratorVersion, cluster`CertificateProfile
    modifies cluster.CertificateProfile, cluster.CertificateProfile.EtcdPeerCertificates,
             cluster.CertificateProfile.EtcdPeerPrivateKeys
    ensures if r.Pass? then SavedAs(c.acs, d.apiModel, Upgraded(m, upgradeVersion)) else d.apiModel == old(d.apiModel)
    ensures r.Decided(c.reliable, ModelUpgradable(w, m, upgradeVersion))
  {
    hide Authorized, KubeConfigReady, SavedAs, References, Parse, ClientSecret;
    var clientSecret := GetClientSecret(c, cluster, m);
    if clientSecret.Failure? { return Fail(clientSecret.error); }
    var uc := new UpgradeClient(clientSecret.value);
    r := uc.SetUpgradeClient(c, cluster, d.id, upgradeVersion, m);
    if r.Pass? {
      r := RunUpgrade(d, c, cluster, m.(OrchestratorVersion := upgradeVersion));
    }
  }

  /** The upgrade itself, after which the model is stored. */
  method RunUpgrade(d: ResourceData, c: ArmClient, cluster: ContainerService, ghost m: ApiModel)
    returns (r: Outcome<Error>)
    requires c.acs.LoadsWhatItSaves() && cluster.Valid() && m == cluster.Model()
    modifies d`apiModel, c`vms, cluster`CertificateProfile
    modifies cluster.CertificateProfile, cluster.CertificateProfile.EtcdPeerCertificates,
             cluster.CertificateProfile.EtcdPeerPrivateKeys
    ensures if r.Pass? then SavedAs(c.acs, d.apiModel, WithReferences(m)) else d.apiModel == old(d.apiModel)
    ensures r.Decided(c.reliable, KubeConfigReady(c.acs, c.vaults, m))
  {
    hide SavedAs, KubeConfigReady, References, KubeConfigText, ThroughVault;
    var kubeconfig := GetKubeConfigForUpdate(c, cluster, m);
    if kubeconfig.Failure? { return Fail(kubeconfig.error); }
    var upgraded := c.Upgrade();
    if !upgraded { return Fail(DeploymentFailed); }
    r := d.SaveTemplates(c, cluster, WithReferences(m));
  }

  // ---- tags ----

  /** The stored model before and after a successful change of tags. */
  ghost predicate TagsSaved(acs: AcsEngine, api: Bytes, tags: Tags, api': Bytes) {
    match Stored(acs, api)
    case None => false
    case Some(m) => SavedAs(acs, api', m.(Tags := ExpandedTags(tags)))
  }

  /** updateResourceGroupTags. */
  method UpdateResourceGroupTags(d: ResourceData, c: ArmClient) returns (r: Outcome<Error>)
    requires c.acs.LoadsWhatItSaves()
    modifies d`apiModel
    ensures if r.Pass? then TagsSaved(c.acs, old(d.apiModel), d.change.newTags, d.apiModel)
            else d.apiModel == old(d.apiModel)
    ensures r.Decided(c.reliable, Stored(c.acs, old(d.apiModel)).Some?)
  {
    hide SavedAs, ExpandedTags;
    var updated := c.Succeeds();
    if !updated { return Fail(ResourceGroupFailed); }
    var loaded := d.LoadContainerService(c);
    if loaded.Failure? { return Fail(loaded.error); }
    var cluster := loaded.value;
    ghost var m := cluster.Model();
    cluster.Tags := ExpandClusterTags(d.change.newTags);
    r := d.SaveTemplates(c, cluster, m.(Tags := ExpandedTags(d.change.newTags)));
  }

  // ---- reading back ----

  /** The counts of the profiles, or None when a profile is not set correctly. */
  function FlattenCounts(pools: seq<Pool>): Option<seq<int>> {
    if pools == [] then Some([])
    else
      var before, last := FlattenCounts(pools[..|pools| - 1]), pools[|pools| - 1];
      if before.None? || !PoolSet(last) then None else Some(before.value + [last.Count])
  }

  predicate PoolSet(p: Pool) {
    p.Name != [] && p.Count >= 1 && p.VMSize != []
  }

  lemma {:induction false} FlattenedCounts(pools: seq<Pool>)
    ensures FlattenCounts(pools).Some? <==> forall i :: 0 <= i < |pools| ==> PoolSet(pools[i])
    ensures FlattenCounts(pools).Some? ==>
              && |FlattenCounts(pools).value| == |pools|
              && forall i :: 0 <= i < |pools| ==> FlattenCounts(pools).value[i] == pools[i].Count
  {
    if pools != [] {
      var front := pools[..|pools| - 1];
      FlattenedCounts(front);
      assert forall i :: 0 <= i < |pools| ==> pools[i] == if i < |front| then front[i] else pools[|pools| - 1];
    }
  }

  /** The other profiles are set correctly: Linux, Windows if there is one, service principal, master. */
  predicate ProfilesSet(m: ApiModel) {
    && m.Rest.AdminUsername != [] && m.Rest.SSHKeys != [] && m.Rest.SSHKeys[0] != []
    && (m.Rest.Windows.Some? ==> m.Rest.Windows.value.AdminUsername != [] && m.Rest.Windows.value.AdminPassword != [])
    && m.Rest.ClientID != [] && m.VaultID != [] && m.SecretName != []
    && m.Rest.MasterCount >= 1 && m.DNSPrefix != [] && m.Rest.MasterVMSize != []
  }

  /** A model with these attributes filled can be shown, with any number of masters and with Windows or without. */
  lemma FilledProfilesSet(m: ApiModel)
    requires m.DNSPrefix != [] && m.VaultID != [] && m.SecretName != [] && m.Rest.ClientID != []
    requires m.Rest.MasterCount >= 1 && m.Rest.MasterVMSize != []
    requires m.Rest.AdminUsername != [] && |m.Rest.SSHKeys| >= 1 && m.Rest.SSHKeys[0] != []
    requires m.Rest.Windows == None
    ensures ProfilesSet(m)
    ensures forall name: Bytes, password: Bytes :: name != [] && password != [] ==>
              ProfilesSet(m.(Rest := m.Rest.(Windows := Some(WindowsProfile(name, password)))))
    ensures forall masters: nat :: masters >= 1 ==> ProfilesSet(m.(Rest := m.Rest.(MasterCount := masters)))
  {
  }

  /** None of the attributes may be blank. */
  lemma BlankNotSet(m: ApiModel)
    ensures !ProfilesSet(m.(DNSPrefix := [])) && !ProfilesSet(m.(VaultID := [])) && !ProfilesSet(m.(SecretName := []))
    ensures !ProfilesSet(m.(Rest := m.Rest.(ClientID := []))) && !ProfilesSet(m.(Rest := m.Rest.(MasterCount := 0)))
    ensures !ProfilesSet(m.(Rest := m.Rest.(MasterVMSize := [])))
    ensures !ProfilesSet(m.(Rest := m.Rest.(AdminUsername := []))) && !ProfilesSet(m.(Rest := m.Rest.(SSHKeys := [])))
    ensures forall keys: seq<Bytes> :: !ProfilesSet(m.(Rest := m.Rest.(SSHKeys := [[]] + keys)))
    ensures forall text: Bytes ::
              && !ProfilesSet(m.(Rest := m.Rest.(Windows := Some(WindowsProfile([], text)))))
              && !ProfilesSet(m.(Rest := m.Rest.(Windows := Some(WindowsProfile(text, [])))))
  {
  }

  /** A pool is shown if it has a name, a size and a VM, whatever else it has. */
  lemma PoolSetText(p: Pool, name: Bytes, size: Bytes, count: nat)
    requires name != [] && size != [] && count >= 1
    ensures PoolSet(p.(Name := name, VMSize := size, Count := count))
    ensures !PoolSet(p.(Name := [])) && !PoolSet(p.(VMSize := [])) && forall n :: n < 1 ==> !PoolSet(p.(Count := n))
  {
  }

  /** The attributes show the stored model. */
  predicate ReadBack(acs: AcsEngine, api: Bytes, version: Bytes, counts: seq<int>, tags: map<Bytes, Bytes>) {
    match Stored(acs, api)
    case None => false
    case Some(m) => version == m.OrchestratorVersion && Some(counts) == FlattenCounts(m.Pools) && tags == m.Tags
  }

  /** Nothing stands in the way of showing m. */
  ghost predicate ModelReadable(w: Services, m: ApiModel) {
    Parse(w.id).Success? && ProfilesSet(m) && FlattenCounts(m.Pools).Some? && KubeConfigReadable(w.acs, w.vaults, m)
  }

  ghost predicate CanRead(w: Services, api: Bytes) {
    match Stored(w.acs, api)
    case None => false
    case Some(m) => ModelReadable(w, m)
  }

  /** resourceACSEngineK8sClusterRead: refreshes the attributes from the stored model, which it leaves alone. */
  method Read(d: ResourceData, c: ArmClient, ghost w: Services) returns (r: Outcome<Error>)
    requires w == ServicesOf(c, d)
    modifies d`version, d`counts, d`tags
    ensures r.Pass? ==> ReadBack(c.acs, d.apiModel, d.version, d.counts, d.tags)
    ensures r.Decided(c.reliable, CanRead(w, d.apiModel))
  {
    hide FlattenCounts, KubeConfigReadable, ProfilesSet, Parse;
    var id := ParseAzureResourceID(d.id);
    if id.Failure? { return Fail(BadID(id.error)); }
    var loaded := d.LoadContainerService(c);
    if loaded.Failure? { return Fail(loaded.error); }
    r := Refresh(d, c, loaded.value, loaded.value.Model());
  }

  method Refresh(d: ResourceData, c: ArmClient, cluster: ContainerService, ghost m: ApiModel)
    returns (r: Outcome<Error>)
    requires cluster.Valid() && m == cluster.Model()
    modifies d`version, d`counts, d`tags, cluster.CertificateProfile
    modifies cluster.CertificateProfile.EtcdPeerCertificates, cluster.CertificateProfile.EtcdPeerPrivateKeys
    ensures r.Pass? ==>
              d.version == m.OrchestratorVersion && Some(d.counts) == FlattenCounts(m.Pools) && d.tags == m.Tags
    ensures r.Decided(c.reliable, ProfilesSet(m) && FlattenCounts(m.Pools).Some?
                      && KubeConfigReadable(c.acs, c.vaults, m))
  {
    hide FlattenCounts, KubeConfigReadable, ProfilesSet;
    r := SetAttributes(d, cluster, m);
    if r.Pass? {
      r := SetKubeConfig(c, cluster, m);
    }
  }

  method SetAttributes(d: ResourceData, cluster: ContainerService, ghost m: ApiModel) returns (r: Outcome<Error>)
    requires m == cluster.Model()
    modifies d`version, d`counts, d`tags
    ensures r.Pass? ==>
              d.version == m.OrchestratorVersion && Some(d.counts) == FlattenCounts(m.Pools) && d.tags == m.Tags
    ensures r.Pass? <==> ProfilesSet(m) && FlattenCounts(m.Pools).Some?
  {
    hide FlattenCounts;
    d.version := cluster.OrchestratorVersion;
    var profiles := SetProfiles(cluster, m);
    if !profiles { return Fail(ReadFailed); }
    var counts := FlattenCounts(cluster.AgentPoolProfiles[..]);
    if counts.None? { return Fail(ReadFailed); }
    d.counts := counts.value;
    d.tags := cluster.Tags;
    r := Pass;
  }

  /** The checks of the flatten functions of the Linux, Windows, service principal and master profiles. */
  method SetProfiles(cluster: ContainerService, ghost m: ApiModel) returns (ok: bool)
    requires m == cluster.Model()
    ensures ok == ProfilesSet(m)
  {
    var a := cluster.Rest;
    var linux := a.SSHKeys != [] && a.AdminUsername != [] && a.SSHKeys[0] != [];
    var windows := a.Windows.None? || (a.Windows.value.AdminUsername != [] && a.Windows.value.AdminPassword != []);
    var principal := cluster.VaultID != [] && cluster.SecretName != [] && a.ClientID != [];
    var master := a.MasterCount >= 1 && cluster.DNSPrefix != [] && a.MasterVMSize != [];
    ok := linux && windows && principal && master;
  }

  // ---- the steps of an update ----

  /** What an update changes, the stored model and the VMs, and how many listings of these there have been. */
  datatype Snapshot = Snapshot(api: Bytes, vms: Group, listed: nat)

  ghost function SnapshotOf(c: ArmClient, d: ResourceData): Snapshot
    reads c, d
  {
    Snapshot(d.apiModel, c.vms, c.listed)
  }

  /** The page that a listing shows in this state. */
  function Page(w: Services, s: Snapshot): seq<Bytes> {
    w.paging(s.listed, s.vms)
  }

  /** An upgrade may leave any VMs behind, but changes the stored model only if it succeeds. */
  ghost predicate VersionStep(w: Services, ch: Change, s: Snapshot, s': Snapshot, ok: bool) {
    if !ch.Version() then ok && s' == s
    else s'.listed == s.listed && if ok then UpgradeSaved(w.acs, s.api, ch.newVersion, s'.api) else s'.api == s.api
  }

  /** An unchanged count costs nothing; a count of zero counts as unset. */
  ghost predicate PoolStep(w: Services, ch: Change, i: nat, s: Snapshot, s': Snapshot, ok: bool)
    requires i < |ch.newCounts|
  {
    if !ch.Count(i) then ok && s' == s
    else if ch.newCounts[i] == 0 then !ok && s' == s
    else ScaleCall(w.acs, w.naming, s.api, s.vms, Page(w, s), i, ch.newCounts[i], s'.api, s'.vms, ok)
  }

  ghost predicate TagsStep(w: Services, ch: Change, s: Snapshot, s': Snapshot, ok: bool) {
    if ok && ch.TagsChanged() then s' == s.(api := s'.api) && TagsSaved(w.acs, s.api, ch.newTags, s'.api)
    else (ok || ch.TagsChanged()) && s' == s
  }

  /** The version, each pool, the tags. */
  function Steps(ch: Change): nat {
    |ch.newCounts| + 2
  }

  ghost predicate Step(w: Services, ch: Change, k: nat, s: Snapshot, s': Snapshot, ok: bool)
    requires k < Steps(ch)
  {
    if k == 0 then VersionStep(w, ch, s, s', ok)
    else if k <= |ch.newCounts| then PoolStep(w, ch, k - 1, s, s', ok)
    else TagsStep(w, ch, s, s', ok)
  }

  /** Nothing stands in the way of the k-th step. */
  ghost predicate CanStep(w: Services, ch: Change, k: nat, s: Snapshot)
    requires k < Steps(ch)
  {
    if k == 0 then ch.Version() ==> CanUpgrade(w, s.api, ch.newVersion)
    else if k <= |ch.newCounts|
    then ch.Count(k - 1) ==>
           CanScale(w.acs, w.naming, w.vaults, w.id, s.api, s.vms, Page(w, s), k - 1, ch.newCounts[k - 1])
    else ch.TagsChanged() ==> Stored(w.acs, s.api).Some?
  }

  /** A step that was tried, with an outcome that is its due: reliable services do what can be done. */
  ghost predicate Tried(w: Services, ch: Change, k: nat, s: Snapshot, s': Snapshot, ok: bool)
    requires k < Steps(ch)
  {
    && Step(w, ch, k, s, s', ok)
    && if ok then CanStep(w, ch, k, s) else w.reliable ==> !CanStep(w, ch, k, s)
  }

  /** The snapshots around a number of steps, all of which have succeeded. */
  ghost predicate Going(w: Services, ch: Change, trace: seq<Snapshot>) {
    && 1 <= |trace| <= Steps(ch) + 1
    && forall k :: 0 <= k < |trace| - 1 ==> Tried(w, ch, k, trace[k], trace[k + 1], true)
  }

  /** All steps but the last have succeeded, and the last has failed. */
  ghost predicate Stopped(w: Services, ch: Change, trace: seq<Snapshot>) {
    && 2 <= |trace| <= Steps(ch) + 1 && Going(w, ch, trace[..|trace| - 1])
    && Tried(w, ch, |trace| - 2, trace[|trace| - 2], trace[|trace| - 1], false)
  }

  /**
   The snapshots of a whole update: the first `done` steps have succeeded, and the next one, if any
   is left, has failed.
   */
  ghost predicate Trace(w: Services, ch: Change, trace: seq<Snapshot>, done: nat) {
    && done <= Steps(ch)
    && if done == Steps(ch) then |trace| == done + 1 && Going(w, ch, trace)
       else |trace| == done + 2 && Stopped(w, ch, trace)
  }

  /** How many steps of a trace have succeeded. */
  function Done(trace: seq<Snapshot>, ok: bool): int {
    if ok then |trace| - 1 else |trace| - 2
  }

  /** The keys marked after the first `done` steps: a pool's count is marked whether or not it changed. */
  function Marks(ch: Change, done: int): set<Mark> {
    (if done >= 1 && ch.Version() then {VersionMark} else {})
    + (set i: nat | i < |ch.newCounts| && i + 1 < done :: CountMark(i))
    + (if done >= |ch.newCounts| + 2 && ch.TagsChanged() then {TagsMark} else {})
  }

  /** A trace from the first snapshot to the last, and the marks that its steps have set. */
  ghost predicate Recorded(w: Services, ch: Change, trace: seq<Snapshot>, first: Snapshot, last: Snapshot,
                           marked0: set<Mark>, marked: set<Mark>, ok: bool) {
    && |trace| >= 1 && trace[0] == first && trace[|trace| - 1] == last
    && (if ok then Going(w, ch, trace) else Stopped(w, ch, trace))
    && marked == marked0 + Marks(ch, Done(trace, ok))
  }

  lemma GoingOn(w: Services, ch: Change, trace: seq<Snapshot>, s: Snapshot)
    requires Going(w, ch, trace) && |trace| <= Steps(ch) && Tried(w, ch, |trace| - 1, trace[|trace| - 1], s, true)
    ensures Going(w, ch, trace + [s])
  {
    hide Tried;
  }

  lemma Stopping(w: Services, ch: Change, trace: seq<Snapshot>, s: Snapshot)
    requires Going(w, ch, trace) && |trace| <= Steps(ch) && Tried(w, ch, |trace| - 1, trace[|trace| - 1], s, false)
    ensures Stopped(w, ch, trace + [s])
  {
    hide Tried;
    assert (trace + [s])[..|trace|] == trace;
  }

  /** One step recorded: the trace grows by the new snapshot, and goes on or stops there. */
  lemma Record(w: Services, ch: Change, trace: seq<Snapshot>, first: Snapshot, last: Snapshot, s: Snapshot,
               marked0: set<Mark>, before: set<Mark>, marked: set<Mark>, ok: bool)
    requires Recorded(w, ch, trace, first, last, marked0, before, true) && |trace| <= Steps(ch)
    requires Tried(w, ch, |trace| - 1, last, s, ok)
    requires marked == if ok then before + NewMarks(ch, |trace| - 1) else before
    ensures Recorded(w, ch, trace + [s], first, s, marked0, marked, ok)
  {
    hide Tried, Going, Stopped, Marks;
    if ok {
      GoingOn(w, ch, trace, s);
      MarksGrow(ch, |trace| - 1);
    } else {
      Stopping(w, ch, trace, s);
    }
  }

  /** The mark that the k-th step sets when it succeeds. */
  function NewMarks(ch: Change, k: nat): set<Mark>
    requires k < Steps(ch)
  {
    if k == 0 then if ch.Version() then {VersionMark} else {}
    else if k <= |ch.newCounts| then {CountMark(k - 1)}
    else if ch.TagsChanged() then {TagsMark} else {}
  }

  lemma MarksGrow(ch: Change, k: nat)
    requires k < Steps(ch)
    ensures Marks(ch, k + 1) == Marks(ch, k) + NewMarks(ch, k)
  {
  }

  // ---- the update ----

  method VersionPart(d: ResourceData, c: ArmClient, ghost w: Services, ghost s: Snapshot) returns (r: Outcome<Error>)
    requires c.acs.LoadsWhatItSaves() && w == ServicesOf(c, d) && s == SnapshotOf(c, d)
    modifies d`apiModel, d`marked, c`vms
    ensures Tried(w, d.change, 0, s, SnapshotOf(c, d), r.Pass?)
    ensures d.marked == if r.Pass? then old(d.marked) + NewMarks(d.change, 0) else old(d.marked)
  {
    hide CanUpgrade, UpgradeSaved;
    if d.change.Version() {
      var allowed := c.Succeeds();
      if !allowed { return Fail(VersionNotAllowed); }
      :- UpgradeCluster(d, c, d.change.newVersion, w);
      d.marked := d.marked + {VersionMark};
    }
    r := Pass;
  }

  method PoolPart(d: ResourceData, c: ArmClient, i: nat, ghost w: Services, ghost s: Snapshot)
    returns (r: Outcome<Error>)
    requires c.acs.LoadsWhatItSaves() && w == ServicesOf(c, d) && s == SnapshotOf(c, d) && i < |d.change.newCounts|
    modifies d`apiModel, d`marked, c`vms, c`drained, c`listed
    ensures Tried(w, d.change, i + 1, s, SnapshotOf(c, d), r.Pass?)
    ensures d.marked == if r.Pass? then old(d.marked) + NewMarks(d.change, i + 1) else old(d.marked)
  {
    hide ScaleCall, ModelScalable;
    if d.change.Count(i) {
      if d.change.newCounts[i] == 0 {
        NoZero(w.acs, w.naming, w.vaults, w.id, s.api, s.vms, Page(w, s), i);
        return Fail(NoDesiredCount);
      }
      :- ScaleCluster(d, c, i, d.change.newCounts[i], Page(w, s));
    }
    d.marked := d.marked + {CountMark(i)};
    r := Pass;
  }

  lemma NoZero(acs: AcsEngine, nm: Naming, vaults: Vaults, id: Bytes, api: Bytes, g: Group, page: seq<Bytes>, i: nat)
    ensures !CanScale(acs, nm, vaults, id, api, g, page, i, 0)
  {
  }

  method TagsPart(d: ResourceData, c: ArmClient, ghost w: Services, ghost s: Snapshot) returns (r: Outcome<Error>)
    requires c.acs.LoadsWhatItSaves() && w == ServicesOf(c, d) && s == SnapshotOf(c, d)
    modifies d`apiModel, d`marked
    ensures Tried(w, d.change, |d.change.newCounts| + 1, s, SnapshotOf(c, d), r.Pass?)
    ensures d.marked == if r.Pass? then old(d.marked) + NewMarks(d.change, |d.change.newCounts| + 1) else old(d.marked)
  {
    hide TagsSaved, Stored;
    if d.change.TagsChanged() {
      :- UpdateResourceGroupTags(d, c);
      d.marked := d.marked + {TagsMark};
    }
    r := Pass;
  }

  method PoolsPart(d: ResourceData, c: ArmClient, ghost w: Services, ghost before: seq<Snapshot>, ghost first: Snapshot,
                   ghost marked0: set<Mark>)
    returns (r: Outcome<Error>, ghost trace: seq<Snapshot>)
    requires c.acs.LoadsWhatItSaves() && w == ServicesOf(c, d) && |before| == 2
    requires Recorded(w, d.change, before, first, SnapshotOf(c, d), marked0, d.marked, true)
    modifies d`apiModel, d`marked, c`vms, c`drained, c`listed
    ensures Recorded(w, d.change, trace, first, SnapshotOf(c, d), marked0, d.marked, r.Pass?)
    ensures r.Pass? ==> |trace| == |d.change.newCounts| + 2
  {
    hide Recorded, Tried, Page;
    trace := before;
    for i := 0 to |d.change.newCounts|
      invariant Recorded(w, d.change, trace, first, SnapshotOf(c, d), marked0, d.marked, true)
      invariant |trace| == i + 2 && w == ServicesOf(c, d)
    {
      ghost var last, marked := SnapshotOf(c, d), d.marked;
      r := PoolPart(d, c, i, w, last);
      Record(w, d.change, trace, first, last, SnapshotOf(c, d), marked0, marked, d.marked, r.Pass?);
      trace := trace + [SnapshotOf(c, d)];
      if r.Fail? { return; }
    }
    r := Pass;
  }

  /**
   resourceACSEngineK8sClusterUpdate up to its last step.  The trace tells which steps succeeded; the
   marks are those of exactly these steps.
   */
  method UpdateSteps(d: ResourceData, c: ArmClient, ghost w: Services, ghost first: Snapshot, ghost marked0: set<Mark>)
    returns (r: Outcome<Error>, ghost trace: seq<Snapshot>)
    requires c.acs.LoadsWhatItSaves() && w == ServicesOf(c, d) && first == SnapshotOf(c, d) && marked0 == d.marked
    modifies d`apiModel, d`marked, c`vms, c`drained, c`listed
    ensures Recorded(w, d.change, trace, first, SnapshotOf(c, d), marked0, d.marked, r.Pass?)
    ensures r.Pass? ==> |trace| == Steps(d.change) + 1
  {
    hide Recorded, Tried;
    NothingRecorded(w, d.change, first, marked0);
    r := VersionPart(d, c, w, first);
    Record(w, d.change, [first], first, first, SnapshotOf(c, d), marked0, marked0, d.marked, r.Pass?);
    trace := [first] + [SnapshotOf(c, d)];
    if r.Fail? { return; }
    r, trace := PoolsPart(d, c, w, trace, first, marked0);
    if r.Fail? { return; }
    ghost var last, marked := SnapshotOf(c, d), d.marked;
    r := TagsPart(d, c, w, last);
    Record(w, d.change, trace, first, last, SnapshotOf(c, d), marked0, marked, d.marked, r.Pass?);
    trace := trace + [SnapshotOf(c, d)];
  }

  lemma NothingRecorded(w: Services, ch: Change, first: Snapshot, marked: set<Mark>)
    ensures Recorded(w, ch, [first], first, first, marked, marked, true)
  {
  }

  lemma RecordedTrace(w: Services, ch: Change, trace: seq<Snapshot>, first: Snapshot, last: Snapshot,
                      marked0: set<Mark>, marked: set<Mark>, ok: bool)
    requires Recorded(w, ch, trace, first, last, marked0, marked, ok) && (ok ==> |trace| == Steps(ch) + 1)
    ensures 0 <= Done(trace, ok) <= Steps(ch) && Trace(w, ch, trace, Done(trace, ok))
    ensures ok <==> Done(trace, ok) == Steps(ch)
  {
    hide Going, Tried;
  }

  /** The whole update: partial mode is left only after the last step, and the attributes are then read back. */
  method Update(d: ResourceData, c: ArmClient, ghost w: Services)
    returns (r: Outcome<Error>, ghost trace: seq<Snapshot>, ghost done: nat)
    requires c.acs.LoadsWhatItSaves() && w == ServicesOf(c, d)
    modifies d, c`vms, c`drained, c`listed
    ensures Trace(w, d.change, trace, done)
    ensures trace[0] == old(SnapshotOf(c, d)) && trace[|trace| - 1] == SnapshotOf(c, d)
    ensures d.marked == old(d.marked) + Marks(d.change, done)
    ensures d.partial <==> done < Steps(d.change)
    ensures r.Pass? ==> ReadBack(c.acs, d.apiModel, d.version, d.counts, d.tags)
    ensures r.Decided(c.reliable, done == Steps(d.change) && CanRead(w, d.apiModel))
  {
    hide Trace, Going, Stopped, CanRead, ReadBack, Marks;
    ghost var first, marked0 := SnapshotOf(c, d), d.marked;
    d.partial := true;
    r, trace := UpdateSteps(d, c, w, first, marked0);
    RecordedTrace(w, d.change, trace, first, SnapshotOf(c, d), marked0, d.marked, r.Pass?);
    done := Done(trace, r.Pass?);
    if r.Pass? {
      d.partial := false;
      r := Read(d, c, w);
    }
  }
}
