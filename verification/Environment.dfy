/**
 The services the provider talks to, with every call free to fail: key vaults, the VMs of the
 cluster's resource group, ARM deployments, and the acs-engine library.
 */
module Environment {
  import opened Results
  import opened Text
  import opened Clusters
  import opened Handover
  import opened AgentPools

  class ArmClient {
    var vaults: Vaults
    var vms: Group
    ghost var drained: set<Bytes>   // nodes whose drain has succeeded
    const acs: AcsEngine
    const naming: Naming
    const paging: Paging
    var listed: nat                 // how many listings there have been
    const reliable: bool   // no call fails without a reason in the data

    /** Whether a remote call goes through. */
    method Succeeds() returns (ok: bool)
      ensures reliable ==> ok
    {
      ok :| reliable ==> ok;
    }

    method GetVault(key: VaultKey) returns (r: Result<VaultKey, Error>)
      ensures r.Success? ==> r.value == key && key in vaults
      ensures reliable && key in vaults ==> r.Success?
    {
      var ok := Succeeds();
      if !ok || key !in vaults { return Failure(VaultNotFound); }
      r := Success(key);
    }

    method SetSecret(uri: VaultKey, name: Bytes, value: Bytes) returns (r: Outcome<Error>)
      requires uri in vaults
      modifies this`vaults
      ensures r == Pass || r == Fail(SecretNotWritten)
      ensures reliable ==> r.Pass?
      ensures vaults == if r.Pass? then old(vaults)[uri := old(vaults)[uri][name := value]] else old(vaults)
    {
      var ok := Succeeds();
      if !ok { return Fail(SecretNotWritten); }
      vaults := vaults[uri := vaults[uri][name := value]];
      r := Pass;
    }

    method GetSecret(uri: VaultKey, name: Bytes) returns (r: Result<Bytes, Error>)
      requires uri in vaults
      ensures r.Success? ==> name in vaults[uri] && r.value == vaults[uri][name]
      ensures reliable && name in vaults[uri] ==> r.Success?
    {
      var ok := Succeeds();
      if !ok || name !in vaults[uri] { return Failure(SecretNotRead); }
      r := Success(vaults[uri][name]);
    }

    /** The first page of the VMs of the group; there may be more that nobody asks for. */
    method ListVirtualMachines() returns (r: Result<seq<Bytes>, Error>)
      modifies this`listed
      ensures r == Success(paging(old(listed), vms)) || r == Failure(ListingFailed)
      ensures listed == old(listed) + 1
      ensures reliable ==> r.Success?
    {
      var ok := Succeeds();
      r := if ok then Success(paging(listed, vms)) else Failure(ListingFailed);
      listed := listed + 1;
    }

    /**
     Deploys the template of one pool with the given offset and count parameters.  It may stop at any
     VM.  A name that a VM of the pool bears already is no obstacle; any other VM of that name makes it stop.
     */
    method DeployTemplate(pool: PoolRef, offset: nat, count: int) returns (ok: bool)
      modifies this`vms
      ensures SomeDeployed(naming, old(vms), pool, offset, count, vms, ok)
      ensures ok ==> NamesUsable(naming, old(vms), pool, offset, count)
      ensures reliable && NamesUsable(naming, old(vms), pool, offset, count) ==> ok
    {
      ghost var made: set<nat> := {};
      var i := offset;
      DeployNothing(naming, vms, pool, offset, count);
      while i < count
        invariant offset <= i && (i <= count || i == offset)
        invariant DeployedBelow(naming, old(vms), pool, offset, count, made, vms, i)
      {
        var n := naming.name(pool, i);
        var created := Succeeds();
        DeployNext(naming, old(vms), pool, offset, count, made, vms, i);
        if !created || (n in vms && !Own(vms[n], pool)) {
          return false;
        }
        vms := vms[n := NewVM(pool)];
        made := made + {i};
        i := i + 1;
      }
      DeployFinished(naming, old(vms), pool, offset, count, made, vms);
      ok := true;
    }

    /**
     Upgrades the cluster: nodes are deleted and created again, one at a time, so that the VMs may be any
     afterwards, even if it fails.
     */
    method Upgrade() returns (ok: bool)
      modifies this`vms
      ensures reliable ==> ok
    {
      vms := *;
      ok := Succeeds();
    }

    /** Deletes VMs independently of one another; succeeds when all are gone. */
    method ScaleDownVMs(names: seq<Bytes>) returns (ok: bool)
      modifies this`vms
      ensures SomeDeleted(old(vms), names, vms, ok)
      ensures reliable ==> ok
    {
      ghost var dead: set<Bytes> := {};
      ok := true;
      for i := 0 to |names|
        invariant dead <= Elements(names[..i]) && vms == old(vms) - dead
        invariant (ok ==> dead == Elements(names[..i])) && (reliable ==> ok)
      {
        assert names[..i + 1] == names[..i] + [names[i]];
        ElementsAppend(names[..i], names[i]);
        var deleted := Succeeds();
        if deleted {
          vms := vms - {names[i]};
          dead := dead + {names[i]};
        } else {
          ok := false;
        }
      }
      assert names[..|names|] == names;
      assert Deleted(old(vms), names, dead, vms, ok);
    }

    method SafelyDrainNode(name: Bytes) returns (ok: bool)
      modifies this`drained
      ensures drained == if ok then old(drained) + {name} else old(drained)
      ensures reliable ==> ok
    {
      ok := Succeeds();
      if ok { drained := drained + {name}; }
    }

    /** acs-engine's kube config for a model, when it can make one. */
    method GenerateKubeConfig(cluster: ContainerService) returns (r: Result<Bytes, Error>)
      ensures var made := acs.GenerateKubeConfig(cluster.Model());
              r == if made.Some? then Success(made.value) else Failure(KubeConfigFailed)
    {
      var made := acs.GenerateKubeConfig(cluster.Model());
      r := if made.Some? then Success(made.value) else Failure(KubeConfigFailed);
    }
  }
}
