/** Scaling one agent pool (acsengine/cluster_scale.go, internal/operations/scale_client.go). */
module ClusterScale {
  import opened Results
  import opened Text
  import opened ResourceIDs
  import opened ResourceIDFormat
  import Import
  import opened Certificates
  import opened Clusters
  import opened Handover
  import opened Authentication
  import opened ClusterTemplates
  import opened Environment
  import opened AgentPools
  import opened TerraformState
  import opened Kubernetes
  import opened KeyVaults
  import D = Draining

  const ENDPOINT_SUFFIX: Bytes := ".cloudapp.azure.com"

  /** The pool that a scaling of the i-th profile addresses. */
  function PoolOf(acs: AcsEngine, m: ApiModel, i: nat): PoolRef
    requires i < |m.Pools|
  {
    PoolRef(m.Pools[i].Name, acs.GenerateClusterID(m.DNSPrefix), m.Pools[i].Windows)
  }

  function FQDN(dnsPrefix: Bytes, location: Bytes): Bytes {
    dnsPrefix + ['.'] + location + ENDPOINT_SUFFIX
  }

  lemma FQDNText(dnsPrefix: Bytes, location: Bytes)
    ensures FQDN(dnsPrefix, location) == dnsPrefix + "." + location + ".cloudapp.azure.com"
  {
  }

  /** The arguments from which a scale client can be set. */
  predicate ClientSettable(m: ApiModel, azureID: Bytes, agentIndex: nat, agentCount: int) {
    match Parse(azureID)
    case Failure(_) => false
    case Success(id) =>
      Import.DeploymentName(id.Path) != [] && agentIndex < |m.Pools| && agentCount >= 1 && m.Location != []
  }

  /**
   It takes a deployment named in the ID, a pool at that index, at least one VM to ask for, and a location.
   */
  lemma SettablePrinted(m: ApiModel, r: ResourceID, order: seq<Bytes>, i: nat, n: int)
    requires Printable(r, order)
    ensures ClientSettable(m, Print(r, order), i, n) <==>
              && (("deployments" in r.Path && r.Path["deployments"] != [])
                  || ("Deployments" in r.Path && r.Path["Deployments"] != []))
              && i < |m.Pools| && n >= 1 && m.Location != []
  {
    hide Parse, Print;
    ParsePrint(r, order);
    assert Import.DEPLOYMENTS == "deployments" && Import.DEPLOYMENTS_UPPER == "Deployments";
  }

  class ScaleClient {
    const ClientSecret: Bytes
    var ResourceGroupName: Bytes
    var Location: Bytes
    var NameSuffix: Bytes
    var Cluster: ContainerService?
    var DesiredAgentCount: int
    var AgentPoolToScale: Bytes
    var MasterFQDN: Bytes
    var AgentPool: Pool
    var AgentPoolIndex: nat
    var DeploymentName: Bytes

    constructor (secret: Bytes)
      ensures ClientSecret == secret && Cluster == null
    {
      ClientSecret := secret;
      ResourceGroupName, Location, NameSuffix, AgentPoolToScale := [], [], [], [];
      MasterFQDN, DeploymentName := [], [];
      Cluster, AgentPool := null, Pool.Pool([], 0, [], false, []);
      DesiredAgentCount, AgentPoolIndex := 0, 0;
    }

    /** Ready for scaling the i-th pool of the cluster, whose model is m, to n VMs. */
    ghost predicate SetFor(acs: AcsEngine, cluster: ContainerService, m: ApiModel, i: nat, n: int)
      reads this
    {
      && Cluster == cluster && i == AgentPoolIndex < |m.Pools| && AgentPool == m.Pools[i]
      && AgentPoolToScale == AgentPool.Name
      && NameSuffix == acs.GenerateClusterID(m.DNSPrefix)
      && n == DesiredAgentCount >= 1 && MasterFQDN != []
    }

    function Target(): PoolRef
      reads this
    {
      PoolRef(AgentPoolToScale, NameSuffix, AgentPool.Windows)
    }

    method SetScaleClient(c: ArmClient, cluster: ContainerService, azureID: Bytes, agentIndex: nat, agentCount: int,
                          ghost m: ApiModel)
      returns (r: Outcome<Error>)
      requires cluster.Valid() && m == cluster.Model()
      modifies this
      ensures r.Pass? ==> SetFor(c.acs, cluster, m, agentIndex, agentCount) && agentCount >= 1
      ensures r.Pass? ==> && Parse(azureID).Success? && ResourceGroupName == Parse(azureID).value.ResourceGroup
                          && DeploymentName == Import.DeploymentName(Parse(azureID).value.Path)
      ensures r.Pass? ==> MasterFQDN == m.DNSPrefix + "." + m.Location + ".cloudapp.azure.com"
      ensures r.Decided(c.reliable, Authorized(m, azureID, ClientSecret)
                        && ClientSettable(m, azureID, agentIndex, agentCount))
    {
      hide Authorized;
      r := SetACSEngineClient(c, cluster, azureID, m);
      if r.Fail? { return; }
      var id := ParseAzureResourceID(azureID);
      if id.Failure? { return Fail(ClientFailed); }
      r := SetTarget(cluster, id.value.Path, agentIndex, agentCount, m);
    }

    /** The fields that scaling needs beyond those of every client. */
    method SetTarget(cluster: ContainerService, path: map<Bytes, Bytes>, agentIndex: nat, agentCount: int,
                     ghost m: ApiModel)
      returns (r: Outcome<Error>)
      requires m == cluster.Model()
      modifies `DesiredAgentCount, `MasterFQDN, `AgentPoolIndex, `AgentPoolToScale, `DeploymentName, `AgentPool
      ensures r.Pass? ==> && AgentPoolIndex == agentIndex < |m.Pools| && AgentPool == m.Pools[agentIndex]
                          && AgentPoolToScale == AgentPool.Name && DesiredAgentCount == agentCount >= 1
                          && MasterFQDN == FQDN(m.DNSPrefix, m.Location) != []
                          && DeploymentName == Import.DeploymentName(path)
      ensures r.Pass? <==>
                Import.DeploymentName(path) != [] && agentIndex < |m.Pools| && agentCount >= 1 && Location != []
    {
      hide Import.DeploymentName;
      DesiredAgentCount := agentCount;
      MasterFQDN := FQDN(cluster.DNSPrefix, cluster.Location);
      AgentPoolIndex := agentIndex;
      if agentIndex >= cluster.AgentPoolProfiles.Length { return Fail(IndexOutOfRange); }
      AgentPoolToScale := cluster.AgentPoolProfiles[agentIndex].Name;
      DeploymentName := Import.DeploymentName(path);
      r := Validate();
      if r.Pass? { AgentPool := cluster.AgentPoolProfiles[AgentPoolIndex]; }
    }

    /** SetACSEngineClient, with the checks of ValidateAuthArgs. */
    method SetACSEngineClient(c: ArmClient, cluster: ContainerService, azureID: Bytes, ghost m: ApiModel)
      returns (r: Outcome<Error>)
      requires m == cluster.Model()
      modifies `ResourceGroupName, `Location, `Cluster, `NameSuffix
      ensures r.Pass? ==> && Cluster == cluster && NameSuffix == c.acs.GenerateClusterID(cluster.DNSPrefix)
                          && Location == cluster.Location
                          && Authorized(m, azureID, ClientSecret)
      ensures r.Pass? && Parse(azureID).Success? ==> ResourceGroupName == Parse(azureID).value.ResourceGroup
      ensures c.reliable && Authorized(m, azureID, ClientSecret) ==> r.Pass?
    {
      var id := ParseAzureResourceID(azureID);
      if id.Failure? { return Fail(BadID(id.error)); }
      ResourceGroupName := id.value.ResourceGroup;
      Location := cluster.Location;
      if !IsProperUUID(id.value.SubscriptionID) || !IsProperUUID(cluster.Rest.ClientID) || ClientSecret == [] {
        return Fail(BadCredentials);
      }
      var authorized := c.Succeeds();
      if !authorized { return Fail(ClientFailed); }
      Cluster := cluster;
      NameSuffix := c.acs.GenerateClusterID(cluster.DNSPrefix);
      r := Pass;
    }

    method Validate() returns (r: Outcome<Error>)
      ensures r == if Location == [] then Fail(NoLocation) else if DesiredAgentCount < 1 then Fail(NoDesiredCount)
                   else if DeploymentName == [] then Fail(NoDeploymentName) else Pass
    {
      if Location == [] { return Fail(NoLocation); }
      if DesiredAgentCount < 1 { return Fail(NoDesiredCount); }
      if DeploymentName == [] { return Fail(NoDeploymentName); }
      r := Pass;
    }

    /** ScaleVMAS: scans the first page of the group's VMs, one VM after the other. */
    method ScaleVMAS(c: ArmClient, ghost page: seq<Bytes>) returns (r: Result<Scan, Error>)
      requires page == c.paging(c.listed, c.vms)
      modifies c`listed
      ensures r.Success? ==> page != [] && ScansTo(c.naming, c.vms, page, Target())
                             && r == ScanListing(c.naming, c.vms, page, Target())
      ensures r == Failure(NilDereference) || r == Failure(BadVMName) ==> !ScansTo(c.naming, c.vms, page, Target())
      ensures c.reliable && page != [] && ScansTo(c.naming, c.vms, page, Target()) ==> r.Success?
    {
      var vms := c.ListVirtualMachines();
      if vms.Failure? { return Failure(vms.error); }
      if |vms.value| < 1 { return Failure(NoVMs); }
      r := ScanPage(c, vms.value);
    }

    method ScanPage(c: ArmClient, vms: seq<Bytes>) returns (r: Result<Scan, Error>)
      requires IsPage(vms, c.vms)
      ensures r == ScanListing(c.naming, c.vms, vms, Target())
    {
      var highestUsedIndex: nat, windowsIndex: int, indexToVM: seq<Bytes> := 0, -1, [];
      for i := 0 to |vms|
        invariant ScanListing(c.naming, c.vms, vms[..i], Target())
                  == Success(Scan(highestUsedIndex, windowsIndex, indexToVM))
      {
        var name := vms[i];
        var vm := c.vms[name];
        ScanPrefix(c.naming, c.vms, vms, Target(), i);
        if vm.poolName.None? || vm.nameSuffix.None? {
          return Failure(NilDereference);
        }
        if !EqualFold(vm.poolName.value, AgentPoolToScale) || !Contains(NameSuffix, vm.nameSuffix.value) {
          continue;
        }
        var vmNum: nat;
        if vm.windows {
          var parts := c.naming.windowsParts(name);
          if parts.None? { return Failure(BadVMName); }
          windowsIndex, vmNum := parts.value.0, parts.value.1;
        } else {
          var parts := c.naming.linuxIndex(name);
          if parts.None? { return Failure(BadVMName); }
          vmNum := parts.value;
        }
        if vmNum > highestUsedIndex {
          highestUsedIndex := vmNum;
        }
        indexToVM := indexToVM + [name];
      }
      assert vms[..|vms|] == vms;
      r := Success(Scan(highestUsedIndex, windowsIndex, indexToVM));
    }

    /** setCountForTemplate. */
    method SetCountForTemplate(highestUsedIndex: int, currentNodeCount: int) returns (countForTemplate: int)
      ensures countForTemplate == TemplateCount(DesiredAgentCount, highestUsedIndex, currentNodeCount)
      ensures 1 <= currentNodeCount <= highestUsedIndex + 1 ==>
                countForTemplate - (highestUsedIndex + 1) == DesiredAgentCount - currentNodeCount
    {
      countForTemplate := DesiredAgentCount;
      if highestUsedIndex != 0 {
        countForTemplate := countForTemplate + (highestUsedIndex + 1 - currentNodeCount);
      }
    }

    /**
     DrainNodes: any interleaving of the goroutines and the receiving loop, up to the point where the
     function has returned.  It passes only after every node was drained.
     */
    method DrainNodes(c: ArmClient, vmsToDelete: seq<Bytes>) returns (r: Outcome<Error>)
      modifies c`drained
      ensures old(c.drained) <= c.drained <= old(c.drained) + Elements(vmsToDelete)
      ensures if r.Pass? then Elements(vmsToDelete) <= c.drained else r.error == DrainFailed
      ensures c.reliable ==> r.Pass?
    {
      hide D.Exec, D.Measure;
      var n := |vmsToDelete|;
      var s := D.Init(n);
      ghost var events: seq<D.Event> := [];
      D.ExecNothing(s);
      while !s.main.Returned?
        invariant D.Exec(D.Init(n), events) == Some(s) && !s.panicked && |s.workers| == n
        invariant old(c.drained) <= c.drained <= old(c.drained) + Elements(vmsToDelete)
        invariant forall w :: 0 <= w < n && !s.workers[w].Busy? && s.workers[w].ok ==> vmsToDelete[w] in c.drained
        invariant c.reliable ==> forall w :: 0 <= w < n && !s.workers[w].Busy? ==> s.workers[w].ok
        decreases D.Measure(s)
      {
        var e := Schedule(s, events, n);
        if e.Drained? {
          var ok := c.SafelyDrainNode(vmsToDelete[e.w]);
          e := D.Drained(e.w, ok);
        }
        D.MeasureDecreases(s, e);
        D.ExecStep(D.Init(n), events, e);
        events := events + [e];
        s := D.Next(s, e);
        D.ExecInv(n, events);
      }
      if s.main.ok {
        D.NilMeansDrained(n, events);
        r := Pass;
      } else {
        D.ErrorMeansFailure(n, events);
        r := Fail(DrainFailed);
      }
    }

    /** The scheduler picks any possible step. */
    method Schedule(s: D.State, ghost events: seq<D.Event>, n: nat) returns (e: D.Event)
      requires D.Exec(D.Init(n), events) == Some(s) && !s.main.Returned? && !s.panicked && |s.workers| == n
      ensures D.Enabled(s, e)
    {
      D.NoDeadlock(n, events);
      if
      case D.Enabled(s, D.Close) => e := D.Close;
      case D.Enabled(s, D.Finish) => e := D.Finish;
      case D.Enabled(s, D.Receive) => e := D.Receive;
      case exists w: nat :: w < n && D.Enabled(s, D.Send(w)) =>
        var w: nat :| w < n && D.Enabled(s, D.Send(w));
        e := D.Send(w);
      case exists w: nat :: w < n && s.workers[w].Busy? =>
        var w: nat :| w < n && s.workers[w].Busy?;
        e := D.Drained(w, true);
    }
  }

  /** vmsToDeleteList: the tail of the list, last VM first. */
  function Reversed<T>(s: seq<T>): seq<T> {
    if s == [] then [] else [s[|s| - 1]] + Reversed(s[..|s| - 1])
  }

  lemma ReversedLast<T>(s: seq<T>, lo: nat, i: nat)
    requires lo <= i < |s|
    ensures Reversed(s[lo..i + 1]) == [s[i]] + Reversed(s[lo..i])
  {
    var rest := s[lo..i + 1];
    assert rest[..|rest| - 1] == s[lo..i];
  }

  lemma ReversedNone<T>(s: seq<T>, lo: nat)
    ensures lo <= |s| ==> Reversed(s[lo..lo]) == []
  {
  }

  method VmsToDeleteList(vms: seq<Bytes>, currentNodeCount: nat, desiredNodeCount: nat)
    returns (vmsToDelete: seq<Bytes>)
    requires currentNodeCount <= |vms|
    ensures vmsToDelete ==
            if desiredNodeCount <= currentNodeCount then Reversed(vms[desiredNodeCount..currentNodeCount]) else []
  {
    hide Reversed;
    vmsToDelete := [];
    var i := currentNodeCount - 1;
    ReversedNone(vms, desiredNodeCount);
    while i >= desiredNodeCount
      invariant desiredNodeCount - 1 <= i <= currentNodeCount - 1 || i == currentNodeCount - 1 < desiredNodeCount
      invariant desiredNodeCount <= currentNodeCount ==>
                  vmsToDelete + Reversed(vms[desiredNodeCount..i + 1])
                  == Reversed(vms[desiredNodeCount..currentNodeCount])
      invariant desiredNodeCount > currentNodeCount ==> vmsToDelete == []
    {
      ReversedLast(vms, desiredNodeCount, i);
      vmsToDelete := vmsToDelete + [vms[i]];
      i := i - 1;
    }
  }

  lemma {:induction false} ReversedMultiset<T>(s: seq<T>)
    ensures multiset(Reversed(s)) == multiset(s)
    ensures Elements(Reversed(s)) == Elements(s)
  {
    if s != [] {
      var front, last := s[..|s| - 1], s[|s| - 1];
      ReversedMultiset(front);
      assert s == front + [last];
      assert Elements(Reversed(s)) == {last} + Elements(Reversed(front));
      ElementsAppend(front, last);
    }
  }

  /** Survivors and VMs to delete together are exactly the scanned VMs. */
  lemma TailConserved<T>(vms: seq<T>, desired: nat)
    requires desired <= |vms|
    ensures multiset(vms[..desired]) + multiset(Reversed(vms[desired..])) == multiset(vms)
    ensures |Reversed(vms[desired..])| == |vms| - desired
    ensures forall i :: 0 <= i < |vms| - desired ==> Reversed(vms[desired..])[i] == vms[|vms| - 1 - i]
  {
    if desired < |vms| { ReversedAt(vms[desired..], 0); }
    ReversedMultiset(vms[desired..]);
    assert vms == vms[..desired] + vms[desired..];
    forall i | 0 <= i < |vms| - desired
      ensures Reversed(vms[desired..])[i] == vms[|vms| - 1 - i]
    {
      ReversedAt(vms[desired..], i);
    }
  }

  lemma {:induction false} ReversedAt<T>(s: seq<T>, i: nat)
    requires i < |s|
    ensures |Reversed(s)| == |s| && Reversed(s)[i] == s[|s| - 1 - i]
  {
    if |s| > 1 {
      ReversedAt(s[..|s| - 1], if i == 0 then 0 else i - 1);
    }
  }

  // ---- the effect of one call on the stored model ----

  /** The model saved by a scaling to n VMs of a pool that had current ones. */
  function ScaledModel(m: ApiModel, i: nat, n: int, current: nat): ApiModel
    requires i < |m.Pools|
  {
    if current > n then
      WithReferences(m).(Pools := m.Pools[i := m.Pools[i].(Count := n)])
    else m.(Pools := [m.Pools[i].(Count := n)])
  }

  /** The stored model after a call that found the given number of VMs. */
  ghost predicate SavedAfter(acs: AcsEngine, api: Bytes, m: ApiModel, i: nat, n: int, current: nat, api': Bytes,
                             ok: bool)
    requires i < |m.Pools|
  {
    match DirectionOf(current, n)
    case Keep => api' == api
    case Down => if ok then SavedAs(acs, api', ScaledModel(m, i, n, current)) else api' == api
    case Up => if ok then i == 0 && SavedAs(acs, api', ScaledModel(m, i, n, current)) else api' == api
  }

  /**
   One call of scaleCluster on stored model and VMs, for which the service listed the given page.  A failed
   call leaves the stored model alone; a successful one saves the desired count unless the scan found that
   many VMs.  Scaling up any profile but the first cannot succeed, as the list then has one element.
   */
  ghost predicate ScaleCall(acs: AcsEngine, nm: Naming, api: Bytes, g: Group, page: seq<Bytes>, i: nat, n: int,
                            api': Bytes, g': Group, ok: bool) {
    match Stored(acs, api)
    case None => !ok && api' == api && g' == g
    case Some(m) =>
      if i >= |m.Pools| || n < 1 then !ok && api' == api && g' == g
      else
        var pool := PoolOf(acs, m, i);
        GroupStep(nm, g, pool, page, n, g', ok) && SavedAfter(acs, api, m, i, n, Scanned(g, page, pool), api', ok)
  }

  /** A call may fail before it has touched anything. */
  lemma ScaleGivesUp(acs: AcsEngine, nm: Naming, api: Bytes, g: Group, page: seq<Bytes>, i: nat, n: int)
    ensures ScaleCall(acs, nm, api, g, page, i, n, api, g, false)
  {
  }

  /**
   Saving after scaling up changes only the pool's count exactly when the model has one pool;
   otherwise it drops the others.
   */
  lemma ScaleUpSaveIff(m: ApiModel, n: int, current: nat)
    requires |m.Pools| > 0 && current < n
    ensures ScaledModel(m, 0, n, current) == m.(Pools := m.Pools[0 := m.Pools[0].(Count := n)]) <==> |m.Pools| == 1
  {
    if |m.Pools| == 1 {
      assert [m.Pools[0].(Count := n)] == m.Pools[0 := m.Pools[0].(Count := n)];
    }
  }

  /** A call for the first pool of a one-pool model that had a full view of it. */
  ghost predicate ScalesOnePool(acs: AcsEngine, nm: Naming, api: Bytes, g: Group, page: seq<Bytes>, n: int,
                                api': Bytes, g': Group, m: ApiModel) {
    && ScaleCall(acs, nm, api, g, page, 0, n, api', g', true)
    && Stored(acs, api) == Some(m) && |m.Pools| == 1
    && PoolInv(nm, g, PoolOf(acs, m, 0)) && FullView(nm, g, PoolOf(acs, m, 0), page, n)
  }

  lemma OnePoolSaved(acs: AcsEngine, nm: Naming, api: Bytes, g: Group, page: seq<Bytes>, n: int, api': Bytes, g': Group,
                     m: ApiModel)
    requires ScaleCall(acs, nm, api, g, page, 0, n, api', g', true) && Stored(acs, api) == Some(m) && |m.Pools| == 1
    ensures Stored(acs, api').Some? && n >= 1
    ensures var m', current := Stored(acs, api').value, Scanned(g, page, PoolOf(acs, m, 0));
            && m'.DNSPrefix == m.DNSPrefix
            && m'.Pools == if current == n then m.Pools else [m.Pools[0].(Count := n)]
  {
    assert m.Pools[0 := m.Pools[0].(Count := n)] == [m.Pools[0].(Count := n)];
  }

  /**
   After a successful call the stored count is the real one exactly when it was already right or the
   pool did not have the desired size before: in that case scaleCluster returns without saving.
   */
  lemma AgreementIff(acs: AcsEngine, nm: Naming, api: Bytes, g: Group, page: seq<Bytes>, n: int, api': Bytes, g': Group,
                     m: ApiModel)
    requires ScalesOnePool(acs, nm, api, g, page, n, api', g', m)
    ensures Stored(acs, api').Some? && |Stored(acs, api').value.Pools| == 1
    ensures var m', pool := Stored(acs, api').value, PoolOf(acs, m, 0);
            && PoolOf(acs, m', 0) == pool && |PoolNames(g', pool)| == n
            && (m'.Pools[0].Count == |PoolNames(g', pool)| <==> m.Pools[0].Count == n || |PoolNames(g, pool)| != n)
  {
    OnePoolSaved(acs, nm, api, g, page, n, api', g', m);
    StepKeepsPool(nm, g, PoolOf(acs, m, 0), page, n, g', true);
    ScannedAll(g, page, PoolOf(acs, m, 0));
  }

  /** A stored count of 2 for a pool of one VM survives every successful call that asks for one VM. */
  lemma StaleCountStays(acs: AcsEngine, nm: Naming, api: Bytes, m: ApiModel, a: Bytes)
    requires Stored(acs, api) == Some(m) && |m.Pools| == 1 && m.Pools[0].Count == 2 && !m.Pools[0].Windows
    requires nm.linuxIndex(a) == Some(0)
    ensures var pool := PoolOf(acs, m, 0);
            var g := map[a := NewVM(pool)];
            && |PoolNames(g, pool)| == 1
            && forall api', g' :: ScaleCall(acs, nm, api, g, [a], 0, 1, api', g', true) <==> api' == api && g' == g
  {
    var pool := PoolOf(acs, m, 0);
    var g: Group := map[a := NewVM(pool)];
    ContainsItself(pool.suffix);
    assert Matches(NewVM(pool), pool);
    assert PoolNames(g, pool) == {a};
    ScanOfOne(nm, g, pool, a);
    ScannedSize(nm, g, [a], pool);
  }

  /** Agreement of count and size is kept by every successful call on a one-pool model. */
  lemma AgreementKept(acs: AcsEngine, nm: Naming, api: Bytes, g: Group, page: seq<Bytes>, n: int, api': Bytes,
                      g': Group, m: ApiModel)
    requires ScalesOnePool(acs, nm, api, g, page, n, api', g', m)
    requires m.Pools[0].Count == |PoolNames(g, PoolOf(acs, m, 0))|
    ensures var m' := Stored(acs, api').value;
            Stored(acs, api').Some? && |m'.Pools| == 1 && m'.Pools[0].Count == |PoolNames(g', PoolOf(acs, m', 0))| == n
  {
    AgreementIff(acs, nm, api, g, page, n, api', g', m);
  }

  // ---- what a scaling takes ----

  /** What draining takes: the address of the master and a kube config. */
  ghost predicate CanPrepare(acs: AcsEngine, vaults: Vaults, m: ApiModel, masterFQDN: Bytes) {
    masterFQDN != [] && KubeConfigReady(acs, vaults, m)
  }

  /** After a scan that found s, nothing stands in the way of bringing the i-th pool to n VMs. */
  ghost predicate ScanScalable(acs: AcsEngine, nm: Naming, vaults: Vaults, m: ApiModel, g: Group, s: Scan,
                               i: nat, n: nat)
    requires i < |m.Pools|
  {
    match DirectionOf(|s.names|, n)
    case Keep => true
    case Down => KubeConfigReady(acs, vaults, m)
    case Up => i == 0 && RoomFor(nm, g, PoolOf(acs, m, i), s, n)
  }

  /** Nothing stands in the way of bringing the i-th pool of the model to n VMs. */
  ghost predicate PoolScalable(acs: AcsEngine, nm: Naming, vaults: Vaults, m: ApiModel, g: Group, page: seq<Bytes>,
                               i: nat, n: int) {
    && i < |m.Pools| && n >= 1
    && page != [] && ScansTo(nm, g, page, PoolOf(acs, m, i))
    && ScanScalable(acs, nm, vaults, m, g, ScanListing(nm, g, page, PoolOf(acs, m, i)).value, i, n)
  }

  /** The stored model m can be scaled. */
  ghost predicate ModelScalable(acs: AcsEngine, nm: Naming, vaults: Vaults, id: Bytes, m: ApiModel, g: Group,
                                page: seq<Bytes>, i: nat, n: int) {
    && ClientReady(vaults, id, m) && ClientSettable(m, id, i, n)
    && PoolScalable(acs, nm, vaults, m, g, page, i, n)
  }

  /** Nothing stands in the way of a scaling. */
  ghost predicate CanScale(acs: AcsEngine, nm: Naming, vaults: Vaults, id: Bytes, api: Bytes, g: Group,
                           page: seq<Bytes>, i: nat, n: int) {
    match Stored(acs, api)
    case None => false
    case Some(m) => ModelScalable(acs, nm, vaults, id, m, g, page, i, n)
  }

  // ---- scaling down ----

  /** Deletes the tail of the scanned VMs once all of it has been drained. */
  method ScaleDownCluster(c: ArmClient, sc: ScaleClient, cluster: ContainerService, currentNodeCount: nat,
                          vms: seq<Bytes>, ghost m: ApiModel, ghost g: Group, ghost tail: seq<Bytes>)
    returns (r: Outcome<Error>)
    requires cluster.Valid() && m == cluster.Model() && g == c.vms
    requires |vms| == currentNodeCount > sc.DesiredAgentCount >= 1 && tail == vms[sc.DesiredAgentCount..]
    modifies c`vms, c`drained
    modifies cluster.CertificateProfile, cluster.CertificateProfile.EtcdPeerCertificates,
             cluster.CertificateProfile.EtcdPeerPrivateKeys
    ensures SomeDeleted(g, tail, c.vms, r.Pass?)
    ensures c.vms != g ==> Elements(tail) <= c.drained
    ensures r.Pass? ==> cluster.Model() == WithReferences(m)
    ensures r.Decided(c.reliable, CanPrepare(c.acs, c.vaults, m, sc.MasterFQDN))
  {
    var vmsToDelete := VmsToDeleteList(vms, currentNodeCount, sc.DesiredAgentCount);
    TailElements(vms, sc.DesiredAgentCount);
    DeleteNothing(g, tail);
    r := PrepareDrain(c, sc, cluster, m);
    if r.Pass? {
      r := DrainAndDelete(c, sc, cluster, vmsToDelete, tail, g);
    }
  }

  method PrepareDrain(c: ArmClient, sc: ScaleClient, cluster: ContainerService, ghost m: ApiModel)
    returns (r: Outcome<Error>)
    requires cluster.Valid() && m == cluster.Model()
    modifies cluster.CertificateProfile, cluster.CertificateProfile.EtcdPeerCertificates,
             cluster.CertificateProfile.EtcdPeerPrivateKeys
    ensures r.Pass? ==> cluster.Model() == WithReferences(m) && CanPrepare(c.acs, c.vaults, m, sc.MasterFQDN)
    ensures c.reliable && CanPrepare(c.acs, c.vaults, m, sc.MasterFQDN) ==> r.Pass?
    ensures unchanged(c) && unchanged(sc)
  {
    if sc.MasterFQDN == [] { return Fail(NoMasterFQDN); }
    var kubeconfig := GetKubeConfigForUpdate(c, cluster, m);
    if kubeconfig.Failure? { return Fail(kubeconfig.error); }
    r := Pass;
  }

  method DrainAndDelete(c: ArmClient, sc: ScaleClient, ghost cluster: ContainerService, vmsToDelete: seq<Bytes>,
                        ghost tail: seq<Bytes>, ghost g: Group)
    returns (r: Outcome<Error>)
    requires Elements(vmsToDelete) == Elements(tail) && g == c.vms
    modifies c`vms, c`drained
    ensures cluster.Model() == old(cluster.Model()) && c.vaults == old(c.vaults) && unchanged(sc)
    ensures SomeDeleted(g, tail, c.vms, r.Pass?)
    ensures c.vms != g ==> Elements(tail) <= c.drained
    ensures c.reliable ==> r.Pass?
  {
    hide SomeDeleted, Elements, Deleted;
    DeleteNothing(g, tail);
    :- sc.DrainNodes(c, vmsToDelete);
    var deleted := c.ScaleDownVMs(vmsToDelete);
    SameElementsDeleted(g, vmsToDelete, tail, c.vms, deleted);
    r := if deleted then Pass else Fail(DeleteFailed);
  }

  lemma TailElements(vms: seq<Bytes>, desired: nat)
    requires desired <= |vms|
    ensures Elements(Reversed(vms[desired..|vms|])) == Elements(vms[desired..])
  {
    assert vms[desired..|vms|] == vms[desired..];
    ReversedMultiset(vms[desired..]);
  }

  lemma DeleteNothing(g: Group, tail: seq<Bytes>)
    ensures SomeDeleted(g, tail, g, false)
  {
    assert Deleted(g, tail, {}, g, false);
  }

  lemma SameElementsDeleted(g: Group, a: seq<Bytes>, b: seq<Bytes>, g': Group, ok: bool)
    requires SomeDeleted(g, a, g', ok) && Elements(a) == Elements(b)
    ensures SomeDeleted(g, b, g', ok)
  {
    var dead :| Deleted(g, a, dead, g', ok);
    assert Deleted(g, b, dead, g', ok);
  }

  // ---- scaling up ----

  /** Deploys the missing VMs; the profile list is cut down to the pool first. */
  method ScaleUpCluster(c: ArmClient, sc: ScaleClient, cluster: ContainerService, s: Scan, ghost m: ApiModel,
                        ghost pool: PoolRef, ghost g: Group)
    returns (r: Outcome<Error>)
    requires cluster.Valid() && m == cluster.Model() && pool == sc.Target() && g == c.vms
    requires sc.AgentPoolIndex < |m.Pools| && sc.AgentPool == m.Pools[sc.AgentPoolIndex] && sc.DesiredAgentCount >= 1
    modifies c`vms, cluster`AgentPoolProfiles, cluster`CertificateProfile
    ensures SomeDeployed(c.naming, g, pool, s.highest + 1, TemplateCount(sc.DesiredAgentCount, s.highest, |s.names|),
                         c.vms, r.Pass?)
    ensures r.Decided(c.reliable, RoomFor(c.naming, g, pool, s, sc.DesiredAgentCount))
    ensures cluster.Valid() && fresh(cluster.AgentPoolProfiles)
    ensures r.Pass? ==> Filled(m.(Pools := [m.Pools[sc.AgentPoolIndex]]), cluster.Model())
  {
    cluster.CutToPool(sc.AgentPool);
    r := DeployMissing(c, sc, cluster, s, m.(Pools := [m.Pools[sc.AgentPoolIndex]]), pool, g);
  }

  method DeployMissing(c: ArmClient, sc: ScaleClient, cluster: ContainerService, s: Scan, ghost m: ApiModel,
                       ghost pool: PoolRef, ghost g: Group)
    returns (r: Outcome<Error>)
    requires cluster.Valid() && m == cluster.Model() && pool == sc.Target() && g == c.vms && sc.DesiredAgentCount >= 1
    modifies c`vms, cluster`CertificateProfile
    ensures SomeDeployed(c.naming, g, pool, s.highest + 1, TemplateCount(sc.DesiredAgentCount, s.highest, |s.names|),
                         c.vms, r.Pass?)
    ensures r.Decided(c.reliable, RoomFor(c.naming, g, pool, s, sc.DesiredAgentCount))
    ensures cluster.Valid() && (r.Pass? ==> Filled(m, cluster.Model()))
  {
    hide Generated, Complete, NamesUsable, Deployed;
    DeployNothing(c.naming, g, pool, s.highest + 1, TemplateCount(sc.DesiredAgentCount, s.highest, |s.names|));
    var formatted, generated := FormatTemplates(c, cluster, m);
    if formatted.Failure? { return Fail(formatted.error); }
    GeneratedFilled(m, generated);
    var countForTemplate := sc.SetCountForTemplate(s.highest, |s.names|);
    var target := PoolRef(sc.AgentPoolToScale, sc.NameSuffix, sc.AgentPool.Windows);
    var deployed := c.DeployTemplate(target, s.highest + 1, countForTemplate);
    r := if deployed then Pass else Fail(DeploymentFailed);
  }

  /** saveScaledApimodel: indexes the profile list with the index it had before any cut. */
  method SaveScaledApimodel(d: ResourceData, c: ArmClient, sc: ScaleClient, cluster: ContainerService,
                            ghost m: ApiModel)
    returns (r: Outcome<Error>)
    requires c.acs.LoadsWhatItSaves() && sc.Cluster == cluster && cluster.Valid() && m == cluster.Model()
    modifies d`apiModel, cluster.AgentPoolProfiles, cluster`CertificateProfile
    ensures r.Fail? ==> d.apiModel == old(d.apiModel)
    ensures sc.AgentPoolIndex >= |m.Pools| ==> r == Fail(IndexOutOfRange)
    ensures c.reliable && sc.AgentPoolIndex < |m.Pools| ==> r.Pass?
    ensures r.Pass? ==>
              var i := sc.AgentPoolIndex;
              SavedAs(c.acs, d.apiModel, m.(Pools := m.Pools[i := m.Pools[i].(Count := sc.DesiredAgentCount)]))
  {
    if sc.AgentPoolIndex >= cluster.AgentPoolProfiles.Length { return Fail(IndexOutOfRange); }
    ghost var i := sc.AgentPoolIndex;
    cluster.SetPoolCount(sc.AgentPoolIndex, sc.DesiredAgentCount);
    r := d.SaveTemplates(c, cluster, m.(Pools := m.Pools[i := m.Pools[i].(Count := sc.DesiredAgentCount)]));
  }

  /** Filling in certificates twice, with a count changed in between, is filling them in once. */
  lemma FilledAgain(m: ApiModel, m1: ApiModel, p: Pool, q: Pool, stored: ApiModel)
    requires Filled(m.(Pools := [p]), m1) && Filled(m1.(Pools := m1.Pools[0 := q]), stored)
    ensures Filled(m.(Pools := [q]), stored)
  {
    assert [p][0 := q] == [q];
  }

  // ---- the operation ----

  /** What a call makes of VMs and stored model after a scan that found s. */
  ghost predicate ScanOutcome(acs: AcsEngine, nm: Naming, api: Bytes, g: Group, s: Scan, m: ApiModel, i: nat, n: nat,
                              api': Bytes, g': Group, ok: bool)
    requires i < |m.Pools|
  {
    && ScaledFrom(nm, g, s, PoolOf(acs, m, i), n, g', ok)
    && SavedAfter(acs, api, m, i, n, |s.names|, api', ok)
  }

  lemma ScaledDown(nm: Naming, g: Group, s: Scan, pool: PoolRef, desired: nat, g': Group, ok: bool)
    requires |s.names| > desired && SomeDeleted(g, s.names[desired..], g', ok)
    ensures ScaledFrom(nm, g, s, pool, desired, g', ok) && ScaledFrom(nm, g, s, pool, desired, g', false)
  {
    var dead :| Deleted(g, s.names[desired..], dead, g', ok);
    assert Deleted(g, s.names[desired..], dead, g', false);
  }

  /** A deployment scales the pool up; that it succeeded may be forgotten. */
  lemma ScaledUp(nm: Naming, g: Group, s: Scan, pool: PoolRef, desired: nat, g': Group, ok: bool)
    requires |s.names| < desired
    requires SomeDeployed(nm, g, pool, s.highest + 1, TemplateCount(desired, s.highest, |s.names|), g', ok)
    ensures ScaledFrom(nm, g, s, pool, desired, g', ok) && ScaledFrom(nm, g, s, pool, desired, g', false)
  {
    var made :| Deployed(nm, g, pool, s.highest + 1, TemplateCount(desired, s.highest, |s.names|), made, g', ok);
    assert Deployed(nm, g, pool, s.highest + 1, TemplateCount(desired, s.highest, |s.names|), made, g', false);
  }

  method ScaleDownAndSave(d: ResourceData, c: ArmClient, sc: ScaleClient, cluster: ContainerService, s: Scan,
                          ghost m: ApiModel, ghost g: Group, ghost i: nat, ghost n: nat)
    returns (r: Outcome<Error>)
    requires cluster.Valid() && m == cluster.Model() && sc.SetFor(c.acs, cluster, m, i, n)
    requires c.acs.LoadsWhatItSaves() && g == c.vms && |s.names| > n
    modifies d`apiModel, c`vms, c`drained, cluster.AgentPoolProfiles, cluster`CertificateProfile
    modifies cluster.CertificateProfile, cluster.CertificateProfile.EtcdPeerCertificates,
             cluster.CertificateProfile.EtcdPeerPrivateKeys
    ensures ScanOutcome(c.acs, c.naming, old(d.apiModel), g, s, m, i, n, d.apiModel, c.vms, r.Pass?)
    ensures r.Decided(c.reliable, KubeConfigReady(c.acs, c.vaults, m))
  {
    hide KubeConfigReady, References, SavedAs, ScaledFrom;
    r := ScaleDownCluster(c, sc, cluster, |s.names|, s.names, m, g, s.names[n..]);
    ScaledDown(c.naming, g, s, PoolOf(c.acs, m, i), n, c.vms, r.Pass?);
    if r.Pass? {
      r := SaveScaledApimodel(d, c, sc, cluster, WithReferences(m));
    }
  }

  method ScaleUpAndSave(d: ResourceData, c: ArmClient, sc: ScaleClient, cluster: ContainerService, s: Scan,
                        ghost m: ApiModel, ghost g: Group, ghost i: nat, ghost n: nat)
    returns (r: Outcome<Error>)
    requires cluster.Valid() && m == cluster.Model() && sc.SetFor(c.acs, cluster, m, i, n)
    requires c.acs.LoadsWhatItSaves() && g == c.vms && |s.names| < n
    modifies d`apiModel, c`vms, cluster`AgentPoolProfiles, cluster`CertificateProfile
    ensures ScanOutcome(c.acs, c.naming, old(d.apiModel), g, s, m, i, n, d.apiModel, c.vms, r.Pass?)
    ensures r.Pass? ==> RoomFor(c.naming, g, PoolOf(c.acs, m, i), s, n)
    ensures c.reliable && i == 0 && RoomFor(c.naming, g, PoolOf(c.acs, m, i), s, n) ==> r.Pass?
  {
    hide RoomFor, NamesUsable, SavedAs, Filled;
    ghost var pool := PoolOf(c.acs, m, i);
    r := ScaleUpCluster(c, sc, cluster, s, m, pool, g);
    ScaledUp(c.naming, g, s, pool, n, c.vms, r.Pass?);
    if r.Pass? {
      r := SaveScaledUp(d, c, sc, cluster, m, cluster.Model());
    }
  }

  /** The save after scaling up, on the list cut down to one profile. */
  method SaveScaledUp(d: ResourceData, c: ArmClient, sc: ScaleClient, cluster: ContainerService, ghost m: ApiModel,
                      ghost m1: ApiModel)
    returns (r: Outcome<Error>)
    requires c.acs.LoadsWhatItSaves() && sc.Cluster == cluster && cluster.Valid() && m1 == cluster.Model()
    requires sc.AgentPoolIndex < |m.Pools| && Filled(m.(Pools := [m.Pools[sc.AgentPoolIndex]]), m1)
    modifies d`apiModel, cluster.AgentPoolProfiles, cluster`CertificateProfile
    ensures r.Fail? ==> d.apiModel == old(d.apiModel)
    ensures r.Pass? ==> sc.AgentPoolIndex == 0
                        && SavedAs(c.acs, d.apiModel, m.(Pools := [m.Pools[0].(Count := sc.DesiredAgentCount)]))
    ensures c.reliable && sc.AgentPoolIndex == 0 ==> r.Pass?
  {
    r := SaveScaledApimodel(d, c, sc, cluster, m1);
    if r.Pass? {
      FilledAgain(m, m1, m.Pools[0], m.Pools[0].(Count := sc.DesiredAgentCount), Stored(c.acs, d.apiModel).value);
    }
  }

  /** The part of scaleCluster that depends on what was scanned. */
  method ScaleScanned(d: ResourceData, c: ArmClient, sc: ScaleClient, cluster: ContainerService, s: Scan,
                      ghost m: ApiModel, ghost g: Group, ghost i: nat, ghost n: nat)
    returns (r: Outcome<Error>)
    requires cluster.Valid() && m == cluster.Model() && sc.SetFor(c.acs, cluster, m, i, n)
    requires c.acs.LoadsWhatItSaves() && g == c.vms
    modifies d`apiModel, c`vms, c`drained
    modifies cluster`AgentPoolProfiles, cluster.AgentPoolProfiles, cluster`CertificateProfile
    modifies cluster.CertificateProfile, cluster.CertificateProfile.EtcdPeerCertificates,
             cluster.CertificateProfile.EtcdPeerPrivateKeys
    ensures ScanOutcome(c.acs, c.naming, old(d.apiModel), g, s, m, i, n, d.apiModel, c.vms, r.Pass?)
    ensures r.Decided(c.reliable, ScanScalable(c.acs, c.naming, c.vaults, m, g, s, i, n))
  {
    var currentNodeCount := |s.names|;
    if currentNodeCount == sc.DesiredAgentCount {
      r := Pass;
    } else if currentNodeCount > sc.DesiredAgentCount {
      r := ScaleDownAndSave(d, c, sc, cluster, s, m, g, i, n);
    } else {
      r := ScaleUpAndSave(d, c, sc, cluster, s, m, g, i, n);
    }
  }

  lemma OutcomeOfScan(acs: AcsEngine, nm: Naming, api: Bytes, g: Group, page: seq<Bytes>, s: Scan, m: ApiModel,
                      i: nat, n: nat, api': Bytes, g': Group, ok: bool)
    requires Stored(acs, api) == Some(m) && i < |m.Pools| && n >= 1
    requires ScansTo(nm, g, page, PoolOf(acs, m, i)) && s == ScanListing(nm, g, page, PoolOf(acs, m, i)).value
    requires ScanOutcome(acs, nm, api, g, s, m, i, n, api', g', ok)
    ensures ScaleCall(acs, nm, api, g, page, i, n, api', g', ok)
  {
    ScannedSize(nm, g, page, PoolOf(acs, m, i));
  }

  method ScaleAvailabilitySet(d: ResourceData, c: ArmClient, sc: ScaleClient, cluster: ContainerService,
                              ghost m: ApiModel, ghost page: seq<Bytes>, ghost g: Group, ghost i: nat, ghost n: nat)
    returns (r: Outcome<Error>)
    requires cluster.Valid() && m == cluster.Model() && sc.SetFor(c.acs, cluster, m, i, n)
    requires c.acs.LoadsWhatItSaves() && g == c.vms
    requires page == c.paging(c.listed, g) && Stored(c.acs, d.apiModel) == Some(m)
    modifies d`apiModel, c`vms, c`drained, c`listed
    modifies cluster`AgentPoolProfiles, cluster.AgentPoolProfiles, cluster`CertificateProfile
    modifies cluster.CertificateProfile, cluster.CertificateProfile.EtcdPeerCertificates,
             cluster.CertificateProfile.EtcdPeerPrivateKeys
    ensures ScaleCall(c.acs, c.naming, old(d.apiModel), g, page, i, n, d.apiModel, c.vms, r.Pass?)
    ensures r.Decided(c.reliable, PoolScalable(c.acs, c.naming, c.vaults, m, g, page, i, n))
  {
    hide ScaleCall, ScanOutcome, ScanScalable, ScansTo, ScanListing, Stored;
    ghost var api := d.apiModel;
    ScaleGivesUp(c.acs, c.naming, api, g, page, i, n);
    var scan := sc.ScaleVMAS(c, page);
    if scan.Failure? { return Fail(scan.error); }
    r := ScaleScanned(d, c, sc, cluster, scan.value, m, g, i, n);
    OutcomeOfScan(c.acs, c.naming, api, g, page, scan.value, m, i, n, d.apiModel, c.vms, r.Pass?);
  }

  method ScaleLoaded(d: ResourceData, c: ArmClient, cluster: ContainerService, agentIndex: nat, agentCount: int,
                     ghost m: ApiModel, ghost page: seq<Bytes>, ghost g: Group)
    returns (r: Outcome<Error>)
    requires c.acs.LoadsWhatItSaves() && cluster.Valid() && m == cluster.Model() && g == c.vms
    requires page == c.paging(c.listed, g) && Stored(c.acs, d.apiModel) == Some(m)
    modifies d`apiModel, c`vms, c`drained, c`listed
    modifies cluster`AgentPoolProfiles, cluster.AgentPoolProfiles, cluster`CertificateProfile
    modifies cluster.CertificateProfile, cluster.CertificateProfile.EtcdPeerCertificates,
             cluster.CertificateProfile.EtcdPeerPrivateKeys
    ensures ScaleCall(c.acs, c.naming, old(d.apiModel), g, page, agentIndex, agentCount, d.apiModel, c.vms, r.Pass?)
    ensures r.Decided(c.reliable, ModelScalable(c.acs, c.naming, c.vaults, d.id, m, g, page, agentIndex, agentCount))
  {
    hide ScaleCall, Authorized, ClientSettable, PoolScalable, Stored, Parse, ClientSecret, ScaleClient.SetFor;
    ScaleGivesUp(c.acs, c.naming, d.apiModel, g, page, agentIndex, agentCount);
    var clientSecret := GetClientSecret(c, cluster, m);
    if clientSecret.Failure? { return Fail(clientSecret.error); }
    var sc := new ScaleClient(clientSecret.value);
    r := sc.SetScaleClient(c, cluster, d.id, agentIndex, agentCount, m);
    if r.Pass? {
      r := ScaleAvailabilitySet(d, c, sc, cluster, m, page, g, agentIndex, agentCount);
    }
  }

  /**
   scaleCluster: loads the model, scans the pool, scales it down or up, and saves the new count.  When the
   scan finds the desired number of VMs it returns without saving.
   */
  method ScaleCluster(d: ResourceData, c: ArmClient, agentIndex: nat, agentCount: int, ghost page: seq<Bytes>)
    returns (r: Outcome<Error>)
    requires c.acs.LoadsWhatItSaves() && page == c.paging(c.listed, c.vms)
    modifies d`apiModel, c`vms, c`drained, c`listed
    ensures ScaleCall(c.acs, c.naming, old(d.apiModel), old(c.vms), page, agentIndex, agentCount, d.apiModel,
                      c.vms, r.Pass?)
    ensures r.Decided(c.reliable, CanScale(c.acs, c.naming, c.vaults, d.id, old(d.apiModel), old(c.vms), page,
                                           agentIndex, agentCount))
  {
    hide ScaleCall, ModelScalable;
    ScaleGivesUp(c.acs, c.naming, d.apiModel, c.vms, page, agentIndex, agentCount);
    var loaded := d.LoadContainerService(c);
    if loaded.Failure? { return Fail(loaded.error); }
    r := ScaleLoaded(d, c, loaded.value, agentIndex, agentCount, loaded.value.Model(), page, c.vms);
  }
}
