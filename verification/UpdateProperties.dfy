/** What whole updates store, what they leave when they fail, and when they complete. */
module UpdateProperties {
  import opened Results
  import opened Text
  import opened Certificates
  import opened Clusters
  import opened Handover
  import opened KeyVaults
  import opened Kubernetes
  import opened ResourceIDs
  import opened AgentPools
  import opened Authentication
  import opened ClusterTemplates
  import opened TerraformState
  import opened ClusterScale
  import opened ClusterUpdate

  // ---- the profile list, for any number of pools ----

  /** The list that a successful scaling of the i-th pool to n VMs stores when its scan found the given number. */
  function PoolsScaled(pools: seq<Pool>, i: nat, n: int, found: nat): seq<Pool>
    requires i < |pools|
  {
    match DirectionOf(found, n)
    case Keep => pools
    case Down => pools[i := pools[i].(Count := n)]
    case Up => [pools[i].(Count := n)]
  }

  /** The first pool is scaled up, and there are others that the stored list then loses. */
  predicate Cuts(pools: seq<Pool>, ch: Change, found: seq<nat>)
    requires |found| == |ch.newCounts|
  {
    |pools| > 1 && found != [] && ch.Count(0) && found[0] < ch.newCounts[0]
  }

  /** The list after the first j pools have been dealt with, where the scan for the i-th found found[i]. */
  function PoolsAfter(pools: seq<Pool>, ch: Change, found: seq<nat>, j: nat): seq<Pool>
    requires j <= |found| == |ch.newCounts|
  {
    if j > 0 && Cuts(pools, ch, found) then [pools[0].(Count := ch.newCounts[0])]
    else seq(|pools|, i requires 0 <= i < |pools| =>
           if i < j && ch.Count(i) && found[i] != ch.newCounts[i] then pools[i].(Count := ch.newCounts[i])
           else pools[i])
  }

  /** The list with exactly the changed ones of the first j counts replaced. */
  function PoolsWanted(pools: seq<Pool>, ch: Change, j: nat): seq<Pool>
    requires j <= |ch.newCounts|
  {
    seq(|pools|, i requires 0 <= i < |pools| =>
      if i < j && ch.Count(i) then pools[i].(Count := ch.newCounts[i]) else pools[i])
  }

  /**
   The counts asked for are the counts stored: no pool is lost, and every changed count was stored already or
   differs from what the scan found.
   */
  predicate CountsKept(pools: seq<Pool>, ch: Change, found: seq<nat>, j: nat)
    requires j <= |found| == |ch.newCounts|
  {
    && !(j > 0 && Cuts(pools, ch, found))
    && forall i :: 0 <= i < j && i < |pools| && ch.Count(i) ==>
         pools[i].Count == ch.newCounts[i] || found[i] != ch.newCounts[i]
  }

  lemma WantedIff(pools: seq<Pool>, ch: Change, found: seq<nat>, j: nat)
    requires j <= |found| == |ch.newCounts|
    ensures PoolsAfter(pools, ch, found, j) == PoolsWanted(pools, ch, j) <==> CountsKept(pools, ch, found, j)
  {
    var after, wanted := PoolsAfter(pools, ch, found, j), PoolsWanted(pools, ch, j);
    if j > 0 && Cuts(pools, ch, found) {
      assert |after| != |wanted|;
    } else {
      assert forall i :: 0 <= i < |pools| ==>
          (after[i] == wanted[i] <==>
             (i < j && ch.Count(i) ==> pools[i].Count == ch.newCounts[i] || found[i] != ch.newCounts[i]));
    }
  }

  /** One more pool with a changed count. */
  lemma PoolsAfterChange(pools: seq<Pool>, ch: Change, found: seq<nat>, j: nat)
    requires j < |found| == |ch.newCounts| && ch.Count(j) && j < |PoolsAfter(pools, ch, found, j)|
    requires found[j] < ch.newCounts[j] ==> j == 0
    ensures PoolsScaled(PoolsAfter(pools, ch, found, j), j, ch.newCounts[j], found[j])
            == PoolsAfter(pools, ch, found, j + 1)
  {
    assert PoolsAfter(pools, ch, found, j)[j] == pools[j];
  }

  lemma PoolsAfterNoChange(pools: seq<Pool>, ch: Change, found: seq<nat>, j: nat)
    requires j < |found| == |ch.newCounts| && !ch.Count(j)
    ensures PoolsAfter(pools, ch, found, j + 1) == PoolsAfter(pools, ch, found, j)
  {
  }

  /** Names, images and sizes of the pools that are still listed are the old ones. */
  lemma PoolsAfterSame(pools: seq<Pool>, ch: Change, found: seq<nat>, j: nat)
    requires j <= |found| == |ch.newCounts|
    ensures |PoolsAfter(pools, ch, found, j)| <= |pools|
    ensures forall i :: 0 <= i < |PoolsAfter(pools, ch, found, j)| ==>
              PoolsAfter(pools, ch, found, j)[i] == pools[i].(Count := PoolsAfter(pools, ch, found, j)[i].Count)
  {
  }

  // ---- the stored model after a number of steps ----

  /** The certificates are all there, and references. */
  ghost predicate Settled(m: ApiModel) {
    CompleteModel(m) && AllReferences(m.Certificates, m.VaultID, m.DNSPrefix)
  }

  lemma SettledReferences(m: ApiModel, m': ApiModel)
    requires Settled(m) && m'.Certificates == m.Certificates && m'.VaultID == m.VaultID && m'.DNSPrefix == m.DNSPrefix
    requires m'.Rest == m.Rest
    ensures Settled(m') && WithReferences(m') == m'
  {
    ReferencesIdempotent(m.Certificates, m.VaultID, m.DNSPrefix);
  }

  /** m' is m but for its certificates, and just m if those are settled. */
  ghost predicate Same(m: ApiModel, m': ApiModel) {
    SameButCertificates(m, m') && (Settled(m) ==> m' == m)
  }

  /** What is stored, with or without references put in place, is m up to certificates that were not settled. */
  lemma SavedSame(acs: AcsEngine, api: Bytes, m: ApiModel)
    requires SavedAs(acs, api, m) || SavedAs(acs, api, WithReferences(m))
    ensures Stored(acs, api).Some? && Same(m, Stored(acs, api).value)
  {
    if Settled(m) {
      SettledReferences(m, m);
    }
  }

  /** How many VMs of the i-th pool the scan for it found. */
  ghost function Found(w: Services, m: ApiModel, trace: seq<Snapshot>, i: nat): nat {
    if i < |m.Pools| && i + 1 < |trace|
    then Scanned(trace[i + 1].vms, Page(w, trace[i + 1]), PoolOf(w.acs, m, i))
    else 0
  }

  ghost function AllFound(w: Services, ch: Change, m: ApiModel, trace: seq<Snapshot>): (found: seq<nat>)
    ensures |found| == |ch.newCounts|
  {
    seq(|ch.newCounts|, (i: nat) => Found(w, m, trace, i))
  }

  /** How many of the first k steps are pools. */
  function PoolSteps(ch: Change, k: nat): (j: nat)
    ensures j <= |ch.newCounts|
  {
    if k == 0 then 0 else if k - 1 <= |ch.newCounts| then k - 1 else |ch.newCounts|
  }

  function WithChanges(m: ApiModel, ch: Change, pools: seq<Pool>, k: nat): ApiModel {
    m.(OrchestratorVersion := if k >= 1 && ch.Version() then ch.newVersion else m.OrchestratorVersion,
       Pools := pools,
       Tags := if k == Steps(ch) && ch.TagsChanged() then ExpandedTags(ch.newTags) else m.Tags)
  }

  /** The stored model after k steps. */
  ghost function After(w: Services, ch: Change, m: ApiModel, trace: seq<Snapshot>, k: nat): ApiModel {
    WithChanges(m, ch, PoolsAfter(m.Pools, ch, AllFound(w, ch, m, trace), PoolSteps(ch, k)), k)
  }

  lemma AfterSettled(w: Services, ch: Change, m: ApiModel, trace: seq<Snapshot>, k: nat)
    requires Settled(m)
    ensures Settled(After(w, ch, m, trace, k))
  {
    hide PoolsAfter;
    SettledReferences(m, After(w, ch, m, trace, k));
  }

  /** A change of something other than the certificates carries over. */
  lemma SameChanged(m: ApiModel, m1: ApiModel, version: Bytes, pools: seq<Pool>, tags: map<Bytes, Bytes>,
                    stored: ApiModel)
    requires Same(m, m1) && Same(m1.(OrchestratorVersion := version, Pools := pools, Tags := tags), stored)
    ensures Same(m.(OrchestratorVersion := version, Pools := pools, Tags := tags), stored)
  {
    var m' := m.(OrchestratorVersion := version, Pools := pools, Tags := tags);
    if Settled(m') {
      SettledReferences(m', m);
    }
  }

  lemma VersionStores(w: Services, ch: Change, m: ApiModel, s: Snapshot, s': Snapshot)
    requires VersionStep(w, ch, s, s', true) && Stored(w.acs, s.api) == Some(m)
    ensures Stored(w.acs, s'.api).Some?
    ensures Same(m.(OrchestratorVersion := if ch.Version() then ch.newVersion else m.OrchestratorVersion),
                 Stored(w.acs, s'.api).value)
  {
    if ch.Version() {
      SavedSame(w.acs, s'.api, m.(OrchestratorVersion := ch.newVersion));
    }
  }

  lemma TagsStore(w: Services, ch: Change, m: ApiModel, s: Snapshot, s': Snapshot)
    requires TagsStep(w, ch, s, s', true) && Stored(w.acs, s.api) == Some(m)
    ensures Stored(w.acs, s'.api).Some?
    ensures Same(m.(Tags := if ch.TagsChanged() then ExpandedTags(ch.newTags) else m.Tags), Stored(w.acs, s'.api).value)
  {
    hide ExpandedTags;
    if ch.TagsChanged() {
      SavedSame(w.acs, s'.api, m.(Tags := ExpandedTags(ch.newTags)));
    }
  }

  lemma ScalingStores(acs: AcsEngine, nm: Naming, api: Bytes, g: Group, page: seq<Bytes>, i: nat, n: int, api': Bytes,
                      g': Group, m: ApiModel)
    requires ScaleCall(acs, nm, api, g, page, i, n, api', g', true) && Stored(acs, api) == Some(m)
    ensures i < |m.Pools| && n >= 1 && Stored(acs, api').Some?
    ensures var found := Scanned(g, page, PoolOf(acs, m, i));
            && Same(m.(Pools := PoolsScaled(m.Pools, i, n, found)), Stored(acs, api').value)
            && (found < n ==> i == 0)
  {
    hide GroupStep, Scanned, PoolOf;
    var found := Scanned(g, page, PoolOf(acs, m, i));
    var target := m.(Pools := PoolsScaled(m.Pools, i, n, found));
    if found != n {
      assert ScaledModel(m, i, n, found) == if found > n then WithReferences(target) else target;
      SavedSame(acs, api', target);
    }
  }

  /** The i-th pool, while it is listed, is the same pool for the services. */
  lemma SameTarget(acs: AcsEngine, m: ApiModel, stored: ApiModel, i: nat)
    requires i < |stored.Pools| <= |m.Pools| && stored.DNSPrefix == m.DNSPrefix
    requires stored.Pools[i] == m.Pools[i].(Count := stored.Pools[i].Count)
    ensures PoolOf(acs, stored, i) == PoolOf(acs, m, i)
  {
  }

  lemma PoolStores(w: Services, ch: Change, m: ApiModel, trace: seq<Snapshot>, i: nat, stored: ApiModel)
    requires i < |ch.newCounts| && i + 2 < |trace| && PoolStep(w, ch, i, trace[i + 1], trace[i + 2], true)
    requires Stored(w.acs, trace[i + 1].api) == Some(stored) && Same(After(w, ch, m, trace, i + 1), stored)
    ensures Stored(w.acs, trace[i + 2].api).Some?
    ensures Same(After(w, ch, m, trace, i + 2), Stored(w.acs, trace[i + 2].api).value)
    ensures ch.Count(i) ==> i < |stored.Pools| && (Found(w, m, trace, i) < ch.newCounts[i] ==> i == 0)
  {
    hide PoolsAfter, PoolsScaled, Same, ScaleCall, PoolOf, Cuts, Scanned, Page, ExpandedTags;
    var found := AllFound(w, ch, m, trace);
    var s, s' := trace[i + 1], trace[i + 2];
    var before := After(w, ch, m, trace, i + 1);
    SameButPools(before, stored);
    if ch.Count(i) {
      ScalingStores(w.acs, w.naming, s.api, s.vms, Page(w, s), i, ch.newCounts[i], s'.api, s'.vms, stored);
      PoolsAfterSame(m.Pools, ch, found, i);
      SameTarget(w.acs, m, stored, i);
      assert found[i] == Found(w, m, trace, i) == Scanned(s.vms, Page(w, s), PoolOf(w.acs, m, i));
      PoolsAfterChange(m.Pools, ch, found, i);
      SameChanged(before, stored, stored.OrchestratorVersion, PoolsAfter(m.Pools, ch, found, i + 1), stored.Tags,
                  Stored(w.acs, s'.api).value);
    } else {
      PoolsAfterNoChange(m.Pools, ch, found, i);
    }
  }

  lemma SameButPools(m: ApiModel, m': ApiModel)
    requires Same(m, m')
    ensures m' == m.(Certificates := m'.Certificates)
  {
  }

  /** The exact stored model after every step of an update, up to certificates that were not settled before. */
  lemma {:induction false} StoredExactly(w: Services, ch: Change, m: ApiModel, trace: seq<Snapshot>, k: nat)
    requires Going(w, ch, trace) && k < |trace| && Stored(w.acs, trace[0].api) == Some(m)
    ensures Stored(w.acs, trace[k].api).Some? && Same(After(w, ch, m, trace, k), Stored(w.acs, trace[k].api).value)
  {
    hide PoolsAfter, Same, PoolStep, CanStep, Found;
    if k == 0 {
      NothingDone(w, ch, m, trace);
    } else {
      StoredExactly(w, ch, m, trace, k - 1);
      assert Tried(w, ch, k - 1, trace[k - 1], trace[k], true);
      StepStores(w, ch, m, trace, k - 1);
    }
  }

  lemma NothingDone(w: Services, ch: Change, m: ApiModel, trace: seq<Snapshot>)
    ensures After(w, ch, m, trace, 0) == m && Same(m, m)
  {
    assert PoolsAfter(m.Pools, ch, AllFound(w, ch, m, trace), 0) == m.Pools;
  }

  lemma StepStores(w: Services, ch: Change, m: ApiModel, trace: seq<Snapshot>, k: nat)
    requires k + 1 < |trace| && k < Steps(ch) && Step(w, ch, k, trace[k], trace[k + 1], true)
    requires Stored(w.acs, trace[k].api).Some? && Same(After(w, ch, m, trace, k), Stored(w.acs, trace[k].api).value)
    ensures Stored(w.acs, trace[k + 1].api).Some?
    ensures Same(After(w, ch, m, trace, k + 1), Stored(w.acs, trace[k + 1].api).value)
  {
    hide PoolsAfter, Same, PoolStep, VersionStep, TagsStep, Found, Cuts, ExpandedTags;
    var before, stored := After(w, ch, m, trace, k), Stored(w.acs, trace[k].api).value;
    SameButPools(before, stored);
    if k == 0 {
      VersionStores(w, ch, stored, trace[0], trace[1]);
      SameChanged(before, stored, After(w, ch, m, trace, 1).OrchestratorVersion, before.Pools, before.Tags,
                  Stored(w.acs, trace[1].api).value);
    } else if k <= |ch.newCounts| {
      PoolStores(w, ch, m, trace, k - 1, stored);
    } else {
      TagsStore(w, ch, stored, trace[k], trace[k + 1]);
      SameChanged(before, stored, before.OrchestratorVersion, before.Pools, After(w, ch, m, trace, k + 1).Tags,
                  Stored(w.acs, trace[k + 1].api).value);
    }
  }

  // ---- what was asked for, and what is stored ----

  /** m with the version, the counts and the tags replaced that are marked and were changed. */
  function AsMarked(m: ApiModel, ch: Change, marked: set<Mark>): ApiModel {
    m.(OrchestratorVersion := if VersionMark in marked then ch.newVersion else m.OrchestratorVersion,
       Pools := seq(|m.Pools|, i requires 0 <= i < |m.Pools| =>
                  if i < |ch.newCounts| && CountMark(i) in marked && ch.Count(i)
                  then m.Pools[i].(Count := ch.newCounts[i]) else m.Pools[i]),
       Tags := if TagsMark in marked then ExpandedTags(ch.newTags) else m.Tags)
  }

  lemma MarkedWanted(m: ApiModel, ch: Change, k: nat)
    requires k <= Steps(ch)
    ensures AsMarked(m, ch, Marks(ch, k)) == WithChanges(m, ch, PoolsWanted(m.Pools, ch, PoolSteps(ch, k)), k)
  {
    assert forall i: nat :: i < |ch.newCounts| ==> (CountMark(i) in Marks(ch, k) <==> i < PoolSteps(ch, k));
    assert AsMarked(m, ch, Marks(ch, k)).Pools == PoolsWanted(m.Pools, ch, PoolSteps(ch, k));
  }

  /** The model stored after a trace is the one after its successful steps. */
  lemma LastStored(w: Services, ch: Change, m: ApiModel, trace: seq<Snapshot>, done: nat)
    requires Trace(w, ch, trace, done) && Stored(w.acs, trace[0].api) == Some(m)
    ensures var api := trace[|trace| - 1].api;
            Stored(w.acs, api).Some? && Same(After(w, ch, m, trace, done), Stored(w.acs, api).value)
  {
    hide After, Same, Going, CanStep;
    if done == Steps(ch) {
      StoredExactly(w, ch, m, trace, done);
    } else {
      var steps := trace[..|trace| - 1];
      StoredExactly(w, ch, m, steps, done);
      FailedKeeps(w, ch, done, trace[done], trace[done + 1]);
      SameFindings(w, ch, m, trace, done);
    }
  }

  /** A failed step leaves the stored model alone. */
  lemma FailedKeeps(w: Services, ch: Change, k: nat, s: Snapshot, s': Snapshot)
    requires k < Steps(ch) && Step(w, ch, k, s, s', false)
    ensures s'.api == s.api
  {
    hide GroupStep, Scanned;
  }

  /** What was found counts only for the steps that succeeded. */
  lemma SameFindings(w: Services, ch: Change, m: ApiModel, trace: seq<Snapshot>, done: nat)
    requires |trace| == done + 2 && done < Steps(ch)
    ensures After(w, ch, m, trace[..done + 1], done) == After(w, ch, m, trace, done)
  {
    hide Scanned, PoolOf, Page;
    var j := PoolSteps(ch, done);
    var found, found' := AllFound(w, ch, m, trace), AllFound(w, ch, m, trace[..done + 1]);
    assert forall i :: 0 <= i < j ==> found[i] == found'[i];
    SameBefore(m.Pools, ch, found, found', j);
  }

  lemma SameBefore(pools: seq<Pool>, ch: Change, a: seq<nat>, b: seq<nat>, j: nat)
    requires j <= |a| == |b| == |ch.newCounts| && forall i :: 0 <= i < j ==> a[i] == b[i]
    ensures PoolsAfter(pools, ch, a, j) == PoolsAfter(pools, ch, b, j)
    ensures CountsKept(pools, ch, a, j) <==> CountsKept(pools, ch, b, j)
  {
  }

  /**
   When an update returns, failed or completed, the model in the resource data is the old one with exactly the
   marked changes made, if and only if the counts that were dealt with are kept: no pool was lost by scaling up
   the first of several, and no scan found the new count already while the stored count was another.
   */
  lemma MarkedIsStoredIff(w: Services, ch: Change, m: ApiModel, trace: seq<Snapshot>, done: nat, marked: set<Mark>,
                          apiModel: Bytes)
    requires Trace(w, ch, trace, done) && Stored(w.acs, trace[0].api) == Some(m) && Settled(m)
    requires marked == Marks(ch, done) && apiModel == trace[|trace| - 1].api
    ensures Stored(w.acs, apiModel) == Some(AsMarked(m, ch, marked)) <==>
            CountsKept(m.Pools, ch, AllFound(w, ch, m, trace), PoolSteps(ch, done))
  {
    hide PoolsAfter, PoolsWanted, CountsKept, Marks, AsMarked, Settled, Going, Stopped;
    AfterSettled(w, ch, m, trace, done);
    LastStored(w, ch, m, trace, done);
    MarkedWanted(m, ch, done);
    WantedIff(m.Pools, ch, AllFound(w, ch, m, trace), PoolSteps(ch, done));
  }

  /** Version and tags are stored whatever the pools. */
  lemma CompletedUpdate(w: Services, ch: Change, m: ApiModel, trace: seq<Snapshot>)
    requires Trace(w, ch, trace, Steps(ch)) && Stored(w.acs, trace[0].api) == Some(m)
    ensures Stored(w.acs, trace[Steps(ch)].api).Some?
    ensures var m' := Stored(w.acs, trace[Steps(ch)].api).value;
            && m'.OrchestratorVersion == (if ch.Version() then ch.newVersion else m.OrchestratorVersion)
            && m'.Tags == (if ch.TagsChanged() then ExpandedTags(ch.newTags) else m.Tags)
            && (m'.Pools == PoolsWanted(m.Pools, ch, |ch.newCounts|) <==>
                  CountsKept(m.Pools, ch, AllFound(w, ch, m, trace), |ch.newCounts|))
  {
    hide PoolsAfter, PoolsWanted, CountsKept, Going, Stopped;
    LastStored(w, ch, m, trace, Steps(ch));
    WantedIff(m.Pools, ch, AllFound(w, ch, m, trace), |ch.newCounts|);
  }

  // ---- in terms of the pools' sizes after the version's step, which without a new version are those before it ----

  /** No two pools have the same name, up to case. */
  ghost predicate DistinctPools(m: ApiModel) {
    forall i, j :: 0 <= i < j < |m.Pools| ==> !EqualFold(m.Pools[i].Name, m.Pools[j].Name)
  }

  /** The page listed for the i-th pool shows all of it. */
  ghost predicate Seen(w: Services, m: ApiModel, s: Snapshot, i: nat)
    requires i < |m.Pools|
  {
    SeesPool(s.vms, PoolOf(w.acs, m, i), Page(w, s))
  }

  /** Every scan that an update came to make saw the whole of its pool. */
  ghost predicate AllSeen(w: Services, ch: Change, m: ApiModel, trace: seq<Snapshot>) {
    forall i :: 0 <= i < |ch.newCounts| && i < |m.Pools| && ch.Count(i) && i + 1 < |trace| ==>
      Seen(w, m, trace[i + 1], i)
  }

  ghost function Sizes(w: Services, ch: Change, m: ApiModel, g: Group): (sizes: seq<nat>)
    ensures |sizes| == |ch.newCounts|
  {
    seq(|ch.newCounts|, (i: nat) => if i < |m.Pools| then |PoolNames(g, PoolOf(w.acs, m, i))| else 0)
  }

  lemma SamePoolRefl(g: Group, pool: PoolRef)
    ensures SamePool(g, g, pool)
  {
  }

  lemma SamePoolTrans(a: Group, b: Group, c: Group, pool: PoolRef)
    requires SamePool(a, b, pool) && SamePool(b, c, pool)
    ensures SamePool(a, c, pool)
  {
  }

  /** The step from the k-th snapshot of a trace to the next. */
  lemma StepAt(w: Services, ch: Change, trace: seq<Snapshot>, done: nat, k: nat)
    requires Trace(w, ch, trace, done) && k + 1 < |trace|
    ensures k < Steps(ch) && k <= done && Step(w, ch, k, trace[k], trace[k + 1], k < done)
  {
    hide Step, CanStep;
    if done < Steps(ch) && k < done {
      var steps := trace[..|trace| - 1];
      assert Tried(w, ch, k, steps[k], steps[k + 1], true);
    } else {
      assert Tried(w, ch, k, trace[k], trace[k + 1], k < done);
    }
  }

  /** Without a new version the first step changes nothing. */
  lemma NoUpgrade(w: Services, ch: Change, trace: seq<Snapshot>, done: nat)
    requires Trace(w, ch, trace, done)
    ensures |trace| >= 2 && (!ch.Version() ==> trace[1] == trace[0] && done >= 1)
  {
    hide Trace, UpgradeSaved;
    TraceLength(w, ch, trace, done);
    StepAt(w, ch, trace, done, 0);
  }

  lemma TraceLength(w: Services, ch: Change, trace: seq<Snapshot>, done: nat)
    requires Trace(w, ch, trace, done)
    ensures done <= Steps(ch) && |trace| == if done == Steps(ch) then done + 1 else done + 2
  {
  }

  /** The pools that are still listed are those of the old model, in the same places. */
  predicate SamePools(m: ApiModel, stored: ApiModel) {
    && stored.DNSPrefix == m.DNSPrefix && |stored.Pools| <= |m.Pools|
    && forall i :: 0 <= i < |stored.Pools| ==> stored.Pools[i] == m.Pools[i].(Count := stored.Pools[i].Count)
  }

  lemma StoredPools(w: Services, ch: Change, m: ApiModel, trace: seq<Snapshot>, done: nat, k: nat)
    requires Trace(w, ch, trace, done) && Stored(w.acs, trace[0].api) == Some(m) && k <= done
    ensures k < |trace| && Stored(w.acs, trace[k].api).Some? && SamePools(m, Stored(w.acs, trace[k].api).value)
  {
    hide PoolsAfter, Same, Going, Stopped;
    Succeeded(w, ch, trace, done);
    var steps := trace[..done + 1];
    StoredExactly(w, ch, m, steps, k);
    SameButPools(After(w, ch, m, steps, k), Stored(w.acs, trace[k].api).value);
    PoolsAfterSame(m.Pools, ch, AllFound(w, ch, m, steps), PoolSteps(ch, k));
  }

  /** A step after the version's that is not its own leaves a pool alone, even if it fails. */
  lemma OtherStepKeeps(w: Services, ch: Change, m: ApiModel, trace: seq<Snapshot>, done: nat, k: nat, i: nat)
    requires Trace(w, ch, trace, done) && Stored(w.acs, trace[0].api) == Some(m) && DistinctPools(m)
    requires i < |m.Pools| && 1 <= k < |trace| - 1 && k != i + 1
    ensures SamePool(trace[k].vms, trace[k + 1].vms, PoolOf(w.acs, m, i))
  {
    hide Trace, GroupStep, SavedAfter, Scanned, VersionStep, SamePool;
    StepAt(w, ch, trace, done, k);
    StoredPools(w, ch, m, trace, done, k);
    var s, s', j := trace[k], trace[k + 1], k - 1;
    SamePoolRefl(s.vms, PoolOf(w.acs, m, i));
    if s'.vms != s.vms {
      SameTarget(w.acs, m, Stored(w.acs, s.api).value, j);
      StepKeepsOthers(w.naming, s.vms, PoolOf(w.acs, m, j), Page(w, s), ch.newCounts[j], s'.vms, k < done,
                      PoolOf(w.acs, m, i));
    }
  }

  /** Between the version's step and its own, no step touches a pool. */
  lemma {:induction false} PoolUntouched(w: Services, ch: Change, m: ApiModel, trace: seq<Snapshot>, done: nat, i: nat,
                                         from: nat, k: nat)
    requires Trace(w, ch, trace, done) && Stored(w.acs, trace[0].api) == Some(m) && DistinctPools(m)
    requires i < |m.Pools| && 1 <= from <= k < |trace| && (k <= i + 1 || i + 1 < from)
    ensures SamePool(trace[from].vms, trace[k].vms, PoolOf(w.acs, m, i))
  {
    hide PoolOf, Trace, DistinctPools;
    if k > from {
      PoolUntouched(w, ch, m, trace, done, i, from, k - 1);
      OtherStepKeeps(w, ch, m, trace, done, k - 1, i);
      SamePoolTrans(trace[from].vms, trace[k - 1].vms, trace[k].vms, PoolOf(w.acs, m, i));
    }
  }

  /** What a scan that saw its whole pool finds is the size of the pool after the version's step. */
  lemma FoundIsSize(w: Services, ch: Change, m: ApiModel, trace: seq<Snapshot>, done: nat, i: nat)
    requires Trace(w, ch, trace, done) && Stored(w.acs, trace[0].api) == Some(m) && DistinctPools(m)
    requires i < |m.Pools| && i + 1 < |trace| && Seen(w, m, trace[i + 1], i)
    ensures Found(w, m, trace, i) == |PoolNames(trace[1].vms, PoolOf(w.acs, m, i))|
  {
    hide PoolOf, Trace, DistinctPools, Scanned;
    PoolUntouched(w, ch, m, trace, done, i, 1, i + 1);
    ScannedAll(trace[i + 1].vms, Page(w, trace[i + 1]), PoolOf(w.acs, m, i));
  }

  /** Only what was found for changed pools matters. */
  lemma KeptAgrees(pools: seq<Pool>, ch: Change, a: seq<nat>, b: seq<nat>, j: nat)
    requires j <= |a| == |b| == |ch.newCounts|
    requires forall i :: 0 <= i < j && i < |pools| && ch.Count(i) ==> a[i] == b[i]
    ensures CountsKept(pools, ch, a, j) <==> CountsKept(pools, ch, b, j)
  {
    assert j > 0 && |pools| > 1 && ch.Count(0) ==> a[0] == b[0];
  }

  /** The part of a trace whose steps have succeeded. */
  lemma Succeeded(w: Services, ch: Change, trace: seq<Snapshot>, done: nat)
    requires Trace(w, ch, trace, done)
    ensures done + 1 <= |trace| && Going(w, ch, trace[..done + 1])
  {
    hide Tried;
    if done == Steps(ch) {
      assert trace[..done + 1] == trace;
    } else {
      assert trace[..done + 1] == trace[..|trace| - 1];
    }
  }

  lemma FoundSizes(w: Services, ch: Change, m: ApiModel, trace: seq<Snapshot>, done: nat)
    requires Trace(w, ch, trace, done) && Stored(w.acs, trace[0].api) == Some(m)
    requires DistinctPools(m) && AllSeen(w, ch, m, trace)
    ensures var found, sizes := AllFound(w, ch, m, trace), Sizes(w, ch, m, trace[1].vms);
            forall i :: 0 <= i < |ch.newCounts| && i < |m.Pools| && ch.Count(i) && i + 1 <= done ==>
              found[i] == sizes[i]
  {
    hide Going, Stopped, PoolOf, Scanned, DistinctPools, Seen;
    forall i | 0 <= i < |ch.newCounts| && i < |m.Pools| && ch.Count(i) && i + 1 <= done
      ensures Found(w, m, trace, i) == |PoolNames(trace[1].vms, PoolOf(w.acs, m, i))|
    {
      FoundIsSize(w, ch, m, trace, done, i);
    }
  }

  /**
   For pools with distinct names that the scans saw whole: after an update, failed or completed, exactly the
   marked changes are stored if and only if the first pool was not scaled up while there are others, and every
   changed count dealt with was stored already or is not the size that its pool had after the version's step,
   which without a new version is the one before the update.
   */
  lemma UpdateIff(w: Services, ch: Change, m: ApiModel, trace: seq<Snapshot>, done: nat, marked: set<Mark>,
                  apiModel: Bytes)
    requires Trace(w, ch, trace, done) && Stored(w.acs, trace[0].api) == Some(m) && Settled(m)
    requires DistinctPools(m) && AllSeen(w, ch, m, trace)
    requires marked == Marks(ch, done) && apiModel == trace[|trace| - 1].api
    ensures Stored(w.acs, apiModel) == Some(AsMarked(m, ch, marked)) <==>
            CountsKept(m.Pools, ch, Sizes(w, ch, m, trace[1].vms), PoolSteps(ch, done))
    ensures !ch.Version() ==> trace[1] == trace[0]
  {
    hide Going, Stopped, CountsKept, AsMarked, Marks, Settled, DistinctPools, AllSeen, AllFound, Sizes;
    NoUpgrade(w, ch, trace, done);
    FoundSizes(w, ch, m, trace, done);
    MarkedIsStoredIff(w, ch, m, trace, done, marked, apiModel);
    KeptAgrees(m.Pools, ch, AllFound(w, ch, m, trace), Sizes(w, ch, m, trace[1].vms), PoolSteps(ch, done));
  }

  /** The old model of a one-pool cluster with exactly the changed version, count and tags replaced. */
  function Expected(m: ApiModel, ch: Change): ApiModel
    requires |m.Pools| == 1 && |ch.newCounts| == 1
  {
    m.(OrchestratorVersion := if ch.Version() then ch.newVersion else m.OrchestratorVersion,
       Pools := [m.Pools[0].(Count := if ch.Count(0) then ch.newCounts[0] else m.Pools[0].Count)],
       Tags := if ch.TagsChanged() then ExpandedTags(ch.newTags) else m.Tags)
  }

  lemma ExpectedIsMarked(m: ApiModel, ch: Change)
    requires |m.Pools| == 1 && |ch.newCounts| == 1
    ensures AsMarked(m, ch, Marks(ch, 3)) == Expected(m, ch)
  {
    MarkedWanted(m, ch, 3);
    assert PoolsWanted(m.Pools, ch, 1) == Expected(m, ch).Pools;
  }

  /** With one pool, only a count that the pool has already, unlike the stored one, is not stored. */
  lemma OnePoolUpdate(w: Services, ch: Change, m: ApiModel, trace: seq<Snapshot>)
    requires |m.Pools| == 1 && |ch.newCounts| == 1 && Trace(w, ch, trace, Steps(ch))
    requires Stored(w.acs, trace[0].api) == Some(m) && Settled(m) && AllSeen(w, ch, m, trace)
    ensures Stored(w.acs, trace[3].api) == Some(Expected(m, ch)) <==>
            (ch.Count(0) ==> m.Pools[0].Count == ch.newCounts[0]
                             || |PoolNames(trace[1].vms, PoolOf(w.acs, m, 0))| != ch.newCounts[0])
  {
    hide Going, Settled, AsMarked, Marks, PoolNames, Expected;
    ExpectedIsMarked(m, ch);
    UpdateIff(w, ch, m, trace, Steps(ch), Marks(ch, Steps(ch)), trace[3].api);
  }

  lemma CountsOf(pools: seq<Pool>, ch: Change, found: seq<nat>, counts: seq<int>)
    requires |found| == |ch.newCounts| == |pools|
             && Some(counts) == FlattenCounts(PoolsAfter(pools, ch, found, |pools|))
    ensures |counts| == |ch.newCounts|
            && (forall i :: 0 <= i < |counts| && ch.Count(i) ==> counts[i] == ch.newCounts[i]) <==>
            CountsKept(pools, ch, found, |pools|)
  {
    FlattenedCounts(PoolsAfter(pools, ch, found, |pools|));
  }

  /**
   What is read back after a completed update is what was asked for, so that nothing is planned
   again, exactly if the counts are kept.
   */
  lemma UpdateConverges(w: Services, ch: Change, m: ApiModel, trace: seq<Snapshot>,
                        version: Bytes, counts: seq<int>, tags: map<Bytes, Bytes>)
    requires Trace(w, ch, trace, Steps(ch)) && Stored(w.acs, trace[0].api) == Some(m) && |m.Pools| == |ch.newCounts|
    requires ReadBack(w.acs, trace[Steps(ch)].api, version, counts, tags)
    ensures ch.Version() ==> version == ch.newVersion
    ensures ch.TagsChanged() ==> tags == ExpandedTags(ch.newTags)
    ensures |counts| == |ch.newCounts|
            && (forall i :: 0 <= i < |counts| && ch.Count(i) ==> counts[i] == ch.newCounts[i]) <==>
            CountsKept(m.Pools, ch, AllFound(w, ch, m, trace), |ch.newCounts|)
  {
    hide Going, Stopped, PoolsAfter, FlattenCounts, CountsKept, AllFound, ExpandedTags;
    LastStored(w, ch, m, trace, Steps(ch));
    CountsOf(m.Pools, ch, AllFound(w, ch, m, trace), counts);
  }

  // ---- when an update completes ----

  /** The attributes that no step changes. */
  predicate SameIdentity(m: ApiModel, m': ApiModel) {
    && m'.Name == m.Name && m'.Location == m.Location && m'.DNSPrefix == m.DNSPrefix
    && m'.VaultID == m.VaultID && m'.SecretName == m.SecretName && m'.Rest == m.Rest
    && m'.Certificates == m.Certificates
  }

  /** A kube config that can be read is made for every such model. */
  ghost predicate KubeConfigFor(w: Services, m: ApiModel) {
    forall m': ApiModel :: SameIdentity(m, m') ==> KubeConfigReadable(w.acs, w.vaults, m')
  }

  /** Credentials, version, counts and kube config are in order. */
  ghost predicate Equipped(w: Services, ch: Change, m: ApiModel) {
    && Settled(m) && ClientReady(w.vaults, w.id, m) && m.Location != []
    && (ch.Version() ==> ch.newVersion != [])
    && (forall i :: 0 <= i < |ch.newCounts| && ch.Count(i) ==> ClientSettable(m, w.id, i, ch.newCounts[i]))
    && KubeConfigFor(w, m)
  }

  /** The page listed for the i-th pool can be scanned, and what has to be added on the strength of it has room. */
  ghost predicate Served(w: Services, m: ApiModel, s: Snapshot, i: nat, n: int) {
    && i < |m.Pools| && n >= 0 && CanReach(w.naming, s.vms, PoolOf(w.acs, m, i), Page(w, s), n)
  }

  ghost predicate AllServed(w: Services, ch: Change, m: ApiModel, trace: seq<Snapshot>) {
    forall i :: 0 <= i < |ch.newCounts| && ch.Count(i) && i + 1 < |trace| ==>
      Served(w, m, trace[i + 1], i, ch.newCounts[i])
  }

  /** Only the first pool is scaled up, and if that loses the others, none of these is changed. */
  predicate Possible(pools: seq<Pool>, ch: Change, found: seq<nat>)
    requires |found| == |ch.newCounts|
  {
    && (forall i :: 0 <= i < |found| && ch.Count(i) && found[i] < ch.newCounts[i] ==> i == 0)
    && (Cuts(pools, ch, found) ==> forall i :: 1 <= i < |found| ==> !ch.Count(i))
  }

  /** A pool step that succeeded was possible. */
  lemma StepWasPossible(w: Services, ch: Change, m: ApiModel, trace: seq<Snapshot>, i: nat)
    requires Going(w, ch, trace) && Stored(w.acs, trace[0].api) == Some(m)
    requires i < |ch.newCounts| && i + 2 < |trace| && ch.Count(i)
    ensures i < |m.Pools| && (Found(w, m, trace, i) < ch.newCounts[i] ==> i == 0)
    ensures Cuts(m.Pools, ch, AllFound(w, ch, m, trace)) ==> i == 0
  {
    hide Same, CanStep, ScaleCall, Found;
    StoredExactly(w, ch, m, trace, i + 1);
    var stored := Stored(w.acs, trace[i + 1].api).value;
    assert Tried(w, ch, i + 1, trace[i + 1], trace[i + 2], true);
    PoolStores(w, ch, m, trace, i, stored);
    SameButPools(After(w, ch, m, trace, i + 1), stored);
    PoolsAfterSame(m.Pools, ch, AllFound(w, ch, m, trace), i);
  }

  lemma CompletedWasPossible(w: Services, ch: Change, m: ApiModel, trace: seq<Snapshot>)
    requires Trace(w, ch, trace, Steps(ch)) && Stored(w.acs, trace[0].api) == Some(m)
    ensures Possible(m.Pools, ch, AllFound(w, ch, m, trace))
    ensures forall i :: 0 <= i < |ch.newCounts| && ch.Count(i) ==> i < |m.Pools|
  {
    hide Found, Cuts, Tried;
    forall i | 0 <= i < |ch.newCounts| && ch.Count(i)
      ensures i < |m.Pools| && (Found(w, m, trace, i) < ch.newCounts[i] ==> i == 0)
      ensures Cuts(m.Pools, ch, AllFound(w, ch, m, trace)) ==> i == 0
    {
      StepWasPossible(w, ch, m, trace, i);
    }
  }

  lemma SameClient(vaults: Vaults, id: Bytes, m: ApiModel, m': ApiModel)
    requires SameIdentity(m, m')
    ensures ClientReady(vaults, id, m') <==> ClientReady(vaults, id, m)
  {
    hide Parse, VaultOf, IsProperUUID;
    assert ClientSecret(vaults, m') == ClientSecret(vaults, m);
  }

  lemma VersionPossible(w: Services, ch: Change, m: ApiModel, s: Snapshot)
    requires Stored(w.acs, s.api) == Some(m) && Equipped(w, ch, m)
    ensures CanStep(w, ch, 0, s)
  {
    hide ClientReady, KubeConfigText, Settled, ClientSettable;
    assert SameIdentity(m, m.(OrchestratorVersion := ch.newVersion));
  }

  lemma SameSettable(m: ApiModel, m': ApiModel, id: Bytes, i: nat, n: int)
    requires ClientSettable(m, id, i, n) && SameIdentity(m, m') && i < |m'.Pools|
    ensures ClientSettable(m', id, i, n)
  {
    hide Parse, Import.DeploymentName;
  }

  /** A model that is listed as m was, as far as the i-th pool goes, can be scaled as m can. */
  lemma ModelStaysScalable(w: Services, ch: Change, m: ApiModel, m': ApiModel, s: Snapshot, i: nat)
    requires Equipped(w, ch, m) && SameIdentity(m, m') && i < |ch.newCounts| && ch.Count(i)
    requires i < |m'.Pools| <= |m.Pools| && m'.Pools[i] == m.Pools[i].(Count := m'.Pools[i].Count)
    requires Served(w, m, s, i, ch.newCounts[i])
    requires Scanned(s.vms, Page(w, s), PoolOf(w.acs, m, i)) < ch.newCounts[i] ==> i == 0
    ensures ModelScalable(w.acs, w.naming, w.vaults, w.id, m', s.vms, Page(w, s), i, ch.newCounts[i])
  {
    hide ClientReady, Settled, ClientSettable, PoolOf, KubeConfigText, ScansTo, RoomFor, Scanned;
    SameClient(w.vaults, w.id, m, m');
    SameSettable(m, m', w.id, i, ch.newCounts[i]);
    SameTarget(w.acs, m, m', i);
    SettableCount(m, w.id, i, ch.newCounts[i]);
    ScannedSize(w.naming, s.vms, Page(w, s), PoolOf(w.acs, m, i));
    assert KubeConfigReadable(w.acs, w.vaults, m');
  }

  lemma SettableCount(m: ApiModel, id: Bytes, i: nat, n: int)
    requires ClientSettable(m, id, i, n)
    ensures n >= 1
  {
  }

  lemma IdentityAfter(w: Services, ch: Change, m: ApiModel, trace: seq<Snapshot>, k: nat)
    ensures SameIdentity(m, After(w, ch, m, trace, k))
  {
    hide PoolsAfter;
  }

  /** A step of an equipped update, when its turn comes, can be done if the update is possible. */
  lemma StepPossible(w: Services, ch: Change, m: ApiModel, trace: seq<Snapshot>, sizes: seq<nat>, k: nat)
    requires k < Steps(ch) && k < |trace| && |sizes| == |ch.newCounts| && Possible(m.Pools, ch, sizes)
    requires Stored(w.acs, trace[k].api) == Some(After(w, ch, m, trace, k)) && Equipped(w, ch, m)
    requires AllServed(w, ch, m, trace)
    requires forall i :: 0 <= i < |ch.newCounts| && i < |m.Pools| && ch.Count(i) && i + 1 <= k ==>
               Found(w, m, trace, i) == sizes[i]
    ensures CanStep(w, ch, k, trace[k])
  {
    hide Found, ClientReady, KubeConfigText, Settled, ClientSettable, CanReach, ModelScalable;
    if k == 0 {
      NothingDone(w, ch, m, trace);
      VersionPossible(w, ch, m, trace[0]);
    } else if k <= |ch.newCounts| && ch.Count(k - 1) {
      PoolPossible(w, ch, m, trace, sizes, k - 1);
    }
  }

  lemma PoolPossible(w: Services, ch: Change, m: ApiModel, trace: seq<Snapshot>, sizes: seq<nat>, i: nat)
    requires i < |ch.newCounts| == |sizes| && i + 1 < |trace| && ch.Count(i) && Possible(m.Pools, ch, sizes)
    requires Stored(w.acs, trace[i + 1].api) == Some(After(w, ch, m, trace, i + 1)) && Equipped(w, ch, m)
    requires AllServed(w, ch, m, trace)
    requires forall j :: 0 <= j < |ch.newCounts| && j < |m.Pools| && ch.Count(j) && j <= i ==>
               Found(w, m, trace, j) == sizes[j]
    ensures var s := trace[i + 1];
            CanScale(w.acs, w.naming, w.vaults, w.id, s.api, s.vms, Page(w, s), i, ch.newCounts[i])
  {
    hide Scanned, PoolOf, ClientReady, KubeConfigText, Settled, ClientSettable, CanReach, ModelScalable, ExpandedTags;
    var m', found := After(w, ch, m, trace, i + 1), AllFound(w, ch, m, trace);
    IdentityAfter(w, ch, m, trace, i + 1);
    PoolsAfterSame(m.Pools, ch, found, i);
    assert Served(w, m, trace[i + 1], i, ch.newCounts[i]);
    assert found[i] == sizes[i];
    assert Cuts(m.Pools, ch, found) <==> Cuts(m.Pools, ch, sizes);
    ModelStaysScalable(w, ch, m, m', trace[i + 1], i);
  }

  /**
   With reliable services, an equipped update whose listings show and serve the pools completes if and only if
   it asks for more VMs in the first pool at most, and for no other change of a count if that loses the others.
   */
  lemma UpdateCompletesIff(w: Services, ch: Change, m: ApiModel, trace: seq<Snapshot>, done: nat)
    requires Trace(w, ch, trace, done) && Stored(w.acs, trace[0].api) == Some(m) && w.reliable
    requires Equipped(w, ch, m) && DistinctPools(m) && AllSeen(w, ch, m, trace) && AllServed(w, ch, m, trace)
    ensures done == Steps(ch) <==> Possible(m.Pools, ch, Sizes(w, ch, m, trace[1].vms))
  {
    hide Going, Possible, AllServed, AllSeen, DistinctPools, Found, Sizes, CanStep, Step, ClientReady, KubeConfigFor;
    var sizes := Sizes(w, ch, m, trace[1].vms);
    FoundSizes(w, ch, m, trace, done);
    if done == Steps(ch) {
      CompletedWasPossible(w, ch, m, trace);
      PossibleAgrees(m.Pools, ch, AllFound(w, ch, m, trace), sizes);
    } else if Possible(m.Pools, ch, sizes) {
      StoredAtFailure(w, ch, m, trace, done);
      LastFound(w, ch, m, trace, done);
      StepPossible(w, ch, m, trace, sizes, done);
    }
  }

  lemma PossibleAgrees(pools: seq<Pool>, ch: Change, a: seq<nat>, b: seq<nat>)
    requires |a| == |b| == |ch.newCounts| && Possible(pools, ch, a)
    requires forall i :: 0 <= i < |a| && ch.Count(i) ==> i < |pools| && a[i] == b[i]
    ensures Possible(pools, ch, b)
  {
    assert |pools| > 1 && |a| > 0 && ch.Count(0) ==> a[0] == b[0];
  }

  lemma StoredAtFailure(w: Services, ch: Change, m: ApiModel, trace: seq<Snapshot>, done: nat)
    requires Trace(w, ch, trace, done) && done < Steps(ch) && Stored(w.acs, trace[0].api) == Some(m) && Settled(m)
    ensures Stored(w.acs, trace[done].api) == Some(After(w, ch, m, trace, done))
  {
    hide After, Going, Settled, CanStep;
    AfterSettled(w, ch, m, trace, done);
    LastStored(w, ch, m, trace, done);
    FailedKeeps(w, ch, done, trace[done], trace[done + 1]);
  }

  lemma LastFound(w: Services, ch: Change, m: ApiModel, trace: seq<Snapshot>, done: nat)
    requires Trace(w, ch, trace, done) && done < Steps(ch) && Stored(w.acs, trace[0].api) == Some(m)
    requires DistinctPools(m) && AllSeen(w, ch, m, trace)
    ensures var sizes := Sizes(w, ch, m, trace[1].vms);
            forall i :: 0 <= i < |ch.newCounts| && i < |m.Pools| && ch.Count(i) && i + 1 <= done ==>
              Found(w, m, trace, i) == sizes[i]
  {
    hide Going, Stopped, Found, Sizes, DistinctPools, AllSeen;
    FoundSizes(w, ch, m, trace, done);
  }

  /** And what a completed update has stored can be read back, so that the whole call succeeds. */
  lemma CompletedCanRead(w: Services, ch: Change, m: ApiModel, trace: seq<Snapshot>)
    requires Trace(w, ch, trace, Steps(ch)) && Stored(w.acs, trace[0].api) == Some(m) && Equipped(w, ch, m)
    requires ProfilesSet(m) && Parse(w.id).Success? && forall i :: 0 <= i < |m.Pools| ==> PoolSet(m.Pools[i])
    ensures CanRead(w, trace[Steps(ch)].api)
  {
    hide Going, After, Settled, ClientReady, ProfilesSet, KubeConfigReadable, Parse, ClientSettable;
    AfterSettled(w, ch, m, trace, Steps(ch));
    LastStored(w, ch, m, trace, Steps(ch));
    IdentityAfter(w, ch, m, trace, Steps(ch));
    PoolsStaySet(w, ch, m, trace, Steps(ch));
    SameProfiles(m, After(w, ch, m, trace, Steps(ch)));
  }

  lemma PoolsStaySet(w: Services, ch: Change, m: ApiModel, trace: seq<Snapshot>, k: nat)
    requires forall i :: 0 <= i < |m.Pools| ==> PoolSet(m.Pools[i])
    requires forall i :: 0 <= i < |ch.newCounts| && ch.Count(i) ==> ClientSettable(m, w.id, i, ch.newCounts[i])
    ensures FlattenCounts(After(w, ch, m, trace, k).Pools).Some?
  {
    hide Found, ClientSettable, ExpandedTags;
    forall i | 0 <= i < |ch.newCounts| && ch.Count(i)
      ensures ch.newCounts[i] >= 1
    {
      SettableCount(m, w.id, i, ch.newCounts[i]);
    }
    FlattenedCounts(After(w, ch, m, trace, k).Pools);
  }

  lemma SameProfiles(m: ApiModel, m': ApiModel)
    requires SameIdentity(m, m')
    ensures ProfilesSet(m') <==> ProfilesSet(m)
  {
  }

  // ---- runs of scalings of a one-pool cluster ----

  function WithCount(m: ApiModel, n: int): ApiModel
    requires |m.Pools| == 1
  {
    m.(Pools := [m.Pools[0].(Count := n)])
  }

  /** The stored model is m with n for the count, and the pool has that many VMs. */
  ghost predicate HealthyAt(w: Services, s: Snapshot, m: ApiModel, n: int)
    requires |m.Pools| == 1
  {
    && Stored(w.acs, s.api) == Some(WithCount(m, n))
    && PoolInv(w.naming, s.vms, PoolOf(w.acs, m, 0)) && |PoolNames(s.vms, PoolOf(w.acs, m, 0))| == n
  }

  /** A successful scaling of the pool to n VMs that had a full view of it. */
  ghost predicate Scales(w: Services, m: ApiModel, s: Snapshot, n: int, s': Snapshot)
    requires |m.Pools| == 1
  {
    && ScaleCall(w.acs, w.naming, s.api, s.vms, Page(w, s), 0, n, s'.api, s'.vms, true)
    && n >= 1 && FullView(w.naming, s.vms, PoolOf(w.acs, m, 0), Page(w, s), n)
  }

  /** One successful scaling of a healthy cluster replaces the count and nothing else, and the cluster stays healthy. */
  lemma ScaleHealthy(w: Services, m: ApiModel, s: Snapshot, n: int, s': Snapshot, before: int)
    requires |m.Pools| == 1 && Settled(m) && HealthyAt(w, s, m, before) && Scales(w, m, s, n, s')
    ensures HealthyAt(w, s', m, n)
  {
    hide PoolInv, Settled, GroupStep, ScaleCall, FullView, Scanned, PoolOf, Same;
    var stored, pool := WithCount(m, before), PoolOf(w.acs, m, 0);
    SameTarget(w.acs, m, stored, 0);
    CallSteps(w, s, n, s', stored);
    StepKeepsPool(w.naming, s.vms, pool, Page(w, s), n, s'.vms, true);
    SeenWhole(w.naming, s.vms, pool, Page(w, s), n);
    ScalingStores(w.acs, w.naming, s.api, s.vms, Page(w, s), 0, n, s'.api, s'.vms, stored);
    CountStored(m, stored, n, before, Stored(w.acs, s'.api).value);
  }

  lemma CallSteps(w: Services, s: Snapshot, n: int, s': Snapshot, stored: ApiModel)
    requires ScaleCall(w.acs, w.naming, s.api, s.vms, Page(w, s), 0, n, s'.api, s'.vms, true)
    requires Stored(w.acs, s.api) == Some(stored) && |stored.Pools| == 1
    ensures n >= 1 && GroupStep(w.naming, s.vms, PoolOf(w.acs, stored, 0), Page(w, s), n, s'.vms, true)
  {
    hide GroupStep, SavedAfter, Scanned, PoolOf;
  }

  lemma CountStored(m: ApiModel, stored: ApiModel, n: int, before: nat, stored': ApiModel)
    requires |m.Pools| == 1 && Settled(m) && stored == WithCount(m, before)
    requires Same(stored.(Pools := PoolsScaled(stored.Pools, 0, n, before)), stored')
    ensures stored' == WithCount(m, n)
  {
    SettledReferences(m, WithCount(m, n));
    assert PoolsScaled(stored.Pools, 0, n, before) == WithCount(m, n).Pools;
  }

  lemma SeenWhole(nm: Naming, g: Group, pool: PoolRef, page: seq<Bytes>, n: nat)
    requires FullView(nm, g, pool, page, n) && IsPage(page, g)
    ensures Scanned(g, page, pool) == |PoolNames(g, pool)|
  {
    ScannedAll(g, page, pool);
  }

  /**
   In every state of every run of successful scalings of a healthy cluster, stored count, pool size and the
   count last asked for agree, and nothing else has changed.  counts[0] is the count at the start.
   */
  lemma {:induction false} HealthyRun(w: Services, m: ApiModel, states: seq<Snapshot>, counts: seq<int>, k: nat)
    requires k < |states| == |counts| && |m.Pools| == 1 && Settled(m) && HealthyAt(w, states[0], m, counts[0])
    requires forall i :: 1 <= i < |states| ==> ScaledAt(w, m, states, counts, i)
    ensures HealthyAt(w, states[k], m, counts[k])
  {
    hide HealthyAt, Settled, Scales;
    if k != 0 {
      HealthyRun(w, m, states, counts, k - 1);
      assert ScaledAt(w, m, states, counts, k);
      ScaleHealthy(w, m, states[k - 1], counts[k], states[k], counts[k - 1]);
    }
  }

  /** The i-th scaling of a run asks for counts[i]. */
  ghost predicate ScaledAt(w: Services, m: ApiModel, states: seq<Snapshot>, counts: seq<int>, i: nat)
    requires 1 <= i < |states| == |counts| && |m.Pools| == 1
  {
    Scales(w, m, states[i - 1], counts[i], states[i])
  }

  // ---- inputs that fail ----

  /** Two pools of one VM each cannot both get a second one, whatever the services do. */
  lemma SecondScalingFails(w: Services, ch: Change, m: ApiModel, trace: seq<Snapshot>, done: nat)
    requires Trace(w, ch, trace, done) && Stored(w.acs, trace[0].api) == Some(m) && |m.Pools| == 2
    requires ch.oldCounts == [1, 1] && ch.newCounts == [2, 2]
    requires DistinctPools(m) && AllSeen(w, ch, m, trace) && Sizes(w, ch, m, trace[1].vms) == [1, 1]
    ensures done < Steps(ch)
  {
    hide Going, DistinctPools, AllSeen, Found, Sizes;
    FoundSizes(w, ch, m, trace, done);
    assert ch.Count(1);
    assert done == Steps(ch) ==> AllFound(w, ch, m, trace)[1] == 1;
    if done == Steps(ch) {
      CompletedWasPossible(w, ch, m, trace);
    }
  }

  /**
   One VM more for the first of two pools, and nothing else, does complete, and loses the second
   from the stored model.
   */
  lemma FirstScalingLoses(w: Services, ch: Change, m: ApiModel, trace: seq<Snapshot>)
    requires Trace(w, ch, trace, Steps(ch)) && Stored(w.acs, trace[0].api) == Some(m) && |m.Pools| == 2
    requires ch.oldCounts == [1, 1] && ch.newCounts == [2, 1]
    requires DistinctPools(m) && AllSeen(w, ch, m, trace) && Sizes(w, ch, m, trace[1].vms) == [1, 1]
    ensures Stored(w.acs, trace[Steps(ch)].api).Some?
    ensures Stored(w.acs, trace[Steps(ch)].api).value.Pools == [m.Pools[0].(Count := 2)]
  {
    hide Going, DistinctPools, AllSeen, Found, Sizes, ExpandedTags;
    FoundSizes(w, ch, m, trace, Steps(ch));
    LastStored(w, ch, m, trace, Steps(ch));
    assert ch.Count(0) && AllFound(w, ch, m, trace)[0] == 1;
  }
}
