/**
 What an update leaves behind: the VMs of every pool, the state that Terraform keeps, and what becomes of these
 when the update is repeated.
 */
module UpdateRuns {
  import opened Results
  import opened Text
  import opened Clusters
  import opened AgentPools
  import opened TerraformState
  import opened ClusterScale
  import opened ClusterUpdate
  import opened UpdateProperties

  // ---- the VMs after an update ----

  /** The update changes the count of the i-th pool. */
  predicate Changed(ch: Change, i: nat) {
    i < |ch.newCounts| && ch.Count(i)
  }

  /** The scan for the i-th pool, if the update came to make it, had a full view of the pool. */
  ghost predicate Viewed(w: Services, ch: Change, m: ApiModel, trace: seq<Snapshot>, i: nat)
    requires i < |m.Pools|
  {
    Changed(ch, i) && i + 2 < |trace| && ch.newCounts[i] >= 1 ==>
      FullView(w.naming, trace[i + 1].vms, PoolOf(w.acs, m, i), Page(w, trace[i + 1]), ch.newCounts[i])
  }

  lemma SamePoolInv(nm: Naming, g: Group, g': Group, pool: PoolRef)
    requires SamePool(g, g', pool) && PoolInv(nm, g, pool)
    ensures PoolInv(nm, g', pool)
  {
  }

  /** A pool's own step keeps it intact, and gives it the new size if it succeeds. */
  lemma OwnStep(w: Services, ch: Change, m: ApiModel, trace: seq<Snapshot>, done: nat, i: nat)
    requires Trace(w, ch, trace, done) && Stored(w.acs, trace[0].api) == Some(m)
    requires i < |m.Pools| && Changed(ch, i) && i + 2 < |trace| && Viewed(w, ch, m, trace, i)
    requires PoolInv(w.naming, trace[i + 1].vms, PoolOf(w.acs, m, i))
    ensures PoolInv(w.naming, trace[i + 2].vms, PoolOf(w.acs, m, i))
    ensures i + 1 < done ==> |PoolNames(trace[i + 2].vms, PoolOf(w.acs, m, i))| == ch.newCounts[i]
  {
    hide Trace, GroupStep, SavedAfter, Scanned, PoolInv, FullView, PoolNames;
    StepAt(w, ch, trace, done, i + 1);
    StoredPools(w, ch, m, trace, done, i + 1);
    var s, s' := trace[i + 1], trace[i + 2];
    if i + 1 < done || s'.vms != s.vms {
      SameTarget(w.acs, m, Stored(w.acs, s.api).value, i);
      StepKeepsPool(w.naming, s.vms, PoolOf(w.acs, m, i), Page(w, s), ch.newCounts[i], s'.vms, i + 1 < done);
    }
  }

  /** What became of the i-th pool between the version's step and the end of an update. */
  ghost predicate PoolResult(w: Services, ch: Change, m: ApiModel, g: Group, g': Group, done: nat, i: nat)
    requires i < |m.Pools|
  {
    var pool := PoolOf(w.acs, m, i);
    && PoolInv(w.naming, g', pool)
    && (Changed(ch, i) && i + 1 < done ==> |PoolNames(g', pool)| == ch.newCounts[i])
    && (!Changed(ch, i) || i + 1 > done ==> SamePool(g, g', pool))
  }

  /**
   After any update, failed or completed, of pools with distinct names: a pool whose scan had a full view keeps
   distinct indexes and is not empty, has the size asked for if its step was carried out, and is untouched
   if its count was not to change or its turn did not come.
   */
  lemma UpdateSafety(w: Services, ch: Change, m: ApiModel, trace: seq<Snapshot>, done: nat, i: nat)
    requires Trace(w, ch, trace, done) && Stored(w.acs, trace[0].api) == Some(m) && DistinctPools(m)
    requires i < |m.Pools| && PoolInv(w.naming, trace[1].vms, PoolOf(w.acs, m, i)) && Viewed(w, ch, m, trace, i)
    ensures PoolResult(w, ch, m, trace[1].vms, trace[|trace| - 1].vms, done, i)
  {
    hide Trace, PoolInv, PoolOf, DistinctPools, SamePool, Viewed;
    var pool, last := PoolOf(w.acs, m, i), |trace| - 1;
    TraceLength(w, ch, trace, done);
    if last <= i + 1 {
      PoolUntouched(w, ch, m, trace, done, i, 1, last);
      SamePoolInv(w.naming, trace[1].vms, trace[last].vms, pool);
    } else {
      PoolUntouched(w, ch, m, trace, done, i, 1, i + 1);
      SamePoolInv(w.naming, trace[1].vms, trace[i + 1].vms, pool);
      PoolUntouched(w, ch, m, trace, done, i, i + 2, last);
      ThroughOwnStep(w, ch, m, trace, done, i);
      SamePoolInv(w.naming, trace[i + 2].vms, trace[last].vms, pool);
      SameSize(trace[i + 2].vms, trace[last].vms, pool);
      if !Changed(ch, i) {
        SamePoolTrans(trace[1].vms, trace[i + 1].vms, trace[i + 2].vms, pool);
        SamePoolTrans(trace[1].vms, trace[i + 2].vms, trace[last].vms, pool);
      }
    }
  }

  lemma SameSize(g: Group, g': Group, pool: PoolRef)
    requires SamePool(g, g', pool)
    ensures |PoolNames(g', pool)| == |PoolNames(g, pool)|
  {
  }

  lemma ThroughOwnStep(w: Services, ch: Change, m: ApiModel, trace: seq<Snapshot>, done: nat, i: nat)
    requires Trace(w, ch, trace, done) && Stored(w.acs, trace[0].api) == Some(m)
    requires i < |m.Pools| && i + 2 < |trace| && Viewed(w, ch, m, trace, i)
    requires PoolInv(w.naming, trace[i + 1].vms, PoolOf(w.acs, m, i))
    ensures PoolInv(w.naming, trace[i + 2].vms, PoolOf(w.acs, m, i))
    ensures Changed(ch, i) && i + 1 < done ==> |PoolNames(trace[i + 2].vms, PoolOf(w.acs, m, i))| == ch.newCounts[i]
    ensures !Changed(ch, i) ==> SamePool(trace[i + 1].vms, trace[i + 2].vms, PoolOf(w.acs, m, i))
  {
    hide Trace, PoolInv, Viewed, ScaleCall, PoolNames, VersionStep, TagsSaved, PoolOf, SamePool;
    if Changed(ch, i) {
      OwnStep(w, ch, m, trace, done, i);
    } else {
      StepAt(w, ch, trace, done, i + 1);
      SamePoolRefl(trace[i + 1].vms, PoolOf(w.acs, m, i));
    }
  }

  function PoolNamesIn(m: ApiModel): seq<Bytes> {
    seq(|m.Pools|, i requires 0 <= i < |m.Pools| => m.Pools[i].Name)
  }

  /**
   Nor does an update, after the version's step, touch a VM whose tags name none of the model's pools, or are no
   part of the cluster's suffix.
   */
  lemma {:induction false} UpdateSparesForeign(w: Services, ch: Change, m: ApiModel, trace: seq<Snapshot>, done: nat,
                                               n: Bytes, k: nat)
    requires Trace(w, ch, trace, done) && Stored(w.acs, trace[0].api) == Some(m) && 1 <= k < |trace|
    requires n in trace[1].vms && Outside(trace[1].vms[n], PoolNamesIn(m), w.acs.GenerateClusterID(m.DNSPrefix))
    ensures Spared(trace[1].vms, trace[k].vms, n)
  {
    hide Trace, Outside;
    if k > 1 {
      UpdateSparesForeign(w, ch, m, trace, done, n, k - 1);
      StepSpares(w, ch, m, trace, done, n, k - 1);
    }
  }

  lemma StepSpares(w: Services, ch: Change, m: ApiModel, trace: seq<Snapshot>, done: nat, n: Bytes, k: nat)
    requires Trace(w, ch, trace, done) && Stored(w.acs, trace[0].api) == Some(m) && 1 <= k < |trace| - 1
    requires n in trace[k].vms && Outside(trace[k].vms[n], PoolNamesIn(m), w.acs.GenerateClusterID(m.DNSPrefix))
    ensures Spared(trace[k].vms, trace[k + 1].vms, n)
  {
    hide Trace, GroupStep, SavedAfter, Scanned, Foreign, VersionStep;
    StepAt(w, ch, trace, done, k);
    StoredPools(w, ch, m, trace, done, k);
    var s, s', j := trace[k], trace[k + 1], k - 1;
    if s'.vms != s.vms {
      var stored := Stored(w.acs, s.api).value;
      assert PoolNamesIn(m)[j] == stored.Pools[j].Name;
      StepSparesForeign(w.naming, s.vms, PoolOf(w.acs, stored, j), Page(w, s), ch.newCounts[j], s'.vms, k < done, n);
    }
  }

  // ---- when stored counts and pools agree ----

  /** Every pool is listed, with as many VMs as it has. */
  ghost predicate Agrees(w: Services, m: ApiModel, pools: seq<Pool>, g: Group) {
    |pools| == |m.Pools| && forall i :: 0 <= i < |pools| ==> pools[i].Count == |PoolNames(g, PoolOf(w.acs, m, i))|
  }

  /** The pools of a cluster before its update: intact after the version's step, and seen whole by the scans. */
  ghost predicate Intact(w: Services, ch: Change, m: ApiModel, trace: seq<Snapshot>)
    requires |trace| >= 2
  {
    && DistinctPools(m) && |ch.newCounts| == |m.Pools|
    && forall i :: 0 <= i < |m.Pools| ==>
         PoolInv(w.naming, trace[1].vms, PoolOf(w.acs, m, i)) && Viewed(w, ch, m, trace, i)
  }

  /** The size of a pool after a completed update. */
  lemma SizeAfterUpdate(w: Services, ch: Change, m: ApiModel, trace: seq<Snapshot>, i: nat)
    requires Trace(w, ch, trace, Steps(ch)) && |trace| >= 2 && Stored(w.acs, trace[0].api) == Some(m)
    requires Intact(w, ch, m, trace) && i < |m.Pools|
    ensures |PoolNames(trace[|trace| - 1].vms, PoolOf(w.acs, m, i))|
            == if ch.Count(i) then ch.newCounts[i] else Sizes(w, ch, m, trace[1].vms)[i]
    ensures ch.Count(i) ==> AllFound(w, ch, m, trace)[i] == Sizes(w, ch, m, trace[1].vms)[i]
  {
    hide Trace, PoolInv, PoolOf, DistinctPools, Found, FullView;
    var pool := PoolOf(w.acs, m, i);
    TraceLength(w, ch, trace, Steps(ch));
    UpdateSafety(w, ch, m, trace, Steps(ch), i);
    if ch.Count(i) {
      PositiveCount(w, ch, trace, Steps(ch), i);
      ViewSees(w.naming, trace[i + 1].vms, pool, Page(w, trace[i + 1]), ch.newCounts[i]);
      FoundIsSize(w, ch, m, trace, Steps(ch), i);
    } else {
      SameSize(trace[1].vms, trace[|trace| - 1].vms, pool);
    }
  }

  lemma ViewSees(nm: Naming, g: Group, pool: PoolRef, page: seq<Bytes>, n: nat)
    requires FullView(nm, g, pool, page, n)
    ensures SeesPool(g, pool, page)
  {
  }

  /** No successful step asks for less than one VM. */
  lemma PositiveCount(w: Services, ch: Change, trace: seq<Snapshot>, done: nat, i: nat)
    requires Trace(w, ch, trace, done) && Changed(ch, i) && i + 1 < done && i + 2 < |trace|
    ensures ch.newCounts[i] >= 1
  {
    hide Trace, GroupStep, SavedAfter;
    StepAt(w, ch, trace, done, i + 1);
  }

  /**
   After a completed update the stored counts are those of the pools, and none is missing, if and only if the
   counts asked for were kept and those not to be changed were right.
   */
  lemma UpdateAgreesIff(w: Services, ch: Change, m: ApiModel, trace: seq<Snapshot>)
    requires Trace(w, ch, trace, Steps(ch)) && |trace| >= 2 && Stored(w.acs, trace[0].api) == Some(m)
    requires Intact(w, ch, m, trace)
    ensures Stored(w.acs, trace[|trace| - 1].api).Some?
    ensures var sizes := Sizes(w, ch, m, trace[1].vms);
            Agrees(w, m, Stored(w.acs, trace[|trace| - 1].api).value.Pools, trace[|trace| - 1].vms) <==>
              && CountsKept(m.Pools, ch, sizes, |ch.newCounts|)
              && forall i :: 0 <= i < |ch.newCounts| && !ch.Count(i) ==> m.Pools[i].Count == sizes[i]
  {
    hide Trace, PoolInv, PoolOf, DistinctPools, AllFound, Sizes, Viewed, PoolsAfter, CountsKept;
    var last, sizes, found := trace[|trace| - 1], Sizes(w, ch, m, trace[1].vms), AllFound(w, ch, m, trace);
    TraceLength(w, ch, trace, Steps(ch));
    LastStored(w, ch, m, trace, Steps(ch));
    forall i | 0 <= i < |m.Pools|
      ensures |PoolNames(last.vms, PoolOf(w.acs, m, i))| == if ch.Count(i) then ch.newCounts[i] else sizes[i]
      ensures ch.Count(i) ==> found[i] == sizes[i]
    {
      SizeAfterUpdate(w, ch, m, trace, i);
    }
    KeptAgrees(m.Pools, ch, found, sizes, |ch.newCounts|);
    CountsAfter(w, ch, m, found, sizes, last.vms);
  }

  lemma CountsAfter(w: Services, ch: Change, m: ApiModel, found: seq<nat>, sizes: seq<nat>, g: Group)
    requires |found| == |sizes| == |ch.newCounts| == |m.Pools|
    requires forall i :: 0 <= i < |m.Pools| ==>
               |PoolNames(g, PoolOf(w.acs, m, i))| == if ch.Count(i) then ch.newCounts[i] else sizes[i]
    ensures Agrees(w, m, PoolsAfter(m.Pools, ch, found, |found|), g) <==>
              && CountsKept(m.Pools, ch, found, |found|)
              && forall i :: 0 <= i < |found| && !ch.Count(i) ==> m.Pools[i].Count == sizes[i]
  {
    hide PoolNames, PoolOf;
    var after := PoolsAfter(m.Pools, ch, found, |found|);
    if !Cuts(m.Pools, ch, found) {
      assert forall i :: 0 <= i < |after| ==>
          after[i].Count == if ch.Count(i) && found[i] != ch.newCounts[i] then ch.newCounts[i] else m.Pools[i].Count;
    }
  }

  /**
   If stored counts and pools agree when the scalings begin, they agree after a completed update exactly if the first
   of several pools was not scaled up.
   */
  lemma AgreementKeptIff(w: Services, ch: Change, m: ApiModel, trace: seq<Snapshot>)
    requires Trace(w, ch, trace, Steps(ch)) && |trace| >= 2 && Stored(w.acs, trace[0].api) == Some(m)
    requires Intact(w, ch, m, trace) && Agrees(w, m, m.Pools, trace[1].vms)
    ensures Stored(w.acs, trace[|trace| - 1].api).Some?
    ensures Agrees(w, m, Stored(w.acs, trace[|trace| - 1].api).value.Pools, trace[|trace| - 1].vms) <==>
              !Cuts(m.Pools, ch, Sizes(w, ch, m, trace[1].vms))
  {
    hide Trace, PoolInv, DistinctPools, Viewed, PoolNames, PoolOf;
    UpdateAgreesIff(w, ch, m, trace);
    assert forall i :: 0 <= i < |m.Pools| && i < |ch.newCounts| ==>
             m.Pools[i].Count == Sizes(w, ch, m, trace[1].vms)[i];
  }

  // ---- updates in terms of the old and the new values ----

  /** The count before the update; a pool that there was none of has none. */
  function OldCount(ch: Change, i: nat): int {
    if i < |ch.oldCounts| then ch.oldCounts[i] else 0
  }

  /** The scan for the i-th pool has a full view of it, if there is one. */
  ghost predicate ViewedAt(w: Services, ch: Change, m: ApiModel, trace: seq<Snapshot>, i: nat)
    requires i < |m.Pools| && i < |ch.newCounts|
  {
    i + 1 < |trace| && ch.newCounts[i] >= 1 ==>
      FullView(w.naming, trace[i + 1].vms, PoolOf(w.acs, m, i), Page(w, trace[i + 1]), ch.newCounts[i])
  }

  /**
   After an update a pool whose new count is another than the old one has as many VMs, if its turn came and was
   carried out; a pool whose count is the same, or whose turn did not come, keeps its VMs.
   */
  lemma UpdatedByValues(w: Services, ch: Change, m: ApiModel, trace: seq<Snapshot>, done: nat, i: nat)
    requires Trace(w, ch, trace, done) && |trace| >= 2 && Stored(w.acs, trace[0].api) == Some(m)
    requires DistinctPools(m) && i < |m.Pools| && i < |ch.newCounts|
    requires PoolInv(w.naming, trace[1].vms, PoolOf(w.acs, m, i)) && ViewedAt(w, ch, m, trace, i)
    ensures OldCount(ch, i) != ch.newCounts[i] && i + 1 < done ==>
              |PoolNames(trace[|trace| - 1].vms, PoolOf(w.acs, m, i))| == ch.newCounts[i]
    ensures OldCount(ch, i) == ch.newCounts[i] || i + 1 > done ==>
              SamePool(trace[1].vms, trace[|trace| - 1].vms, PoolOf(w.acs, m, i))
  {
    hide Trace, PoolInv, PoolOf, DistinctPools, SamePool, FullView, PoolNames;
    UpdateSafety(w, ch, m, trace, done, i);
  }

  /** The profile of a pool whose count is the same stays as it was while it is listed, after every step. */
  lemma ProfileByValues(w: Services, ch: Change, m: ApiModel, trace: seq<Snapshot>, done: nat, i: nat)
    requires Trace(w, ch, trace, done) && Stored(w.acs, trace[0].api) == Some(m)
    requires i < |m.Pools| && i < |ch.newCounts| && OldCount(ch, i) == ch.newCounts[i]
    ensures |trace| >= 1 && Stored(w.acs, trace[|trace| - 1].api).Some?
    ensures var pools := Stored(w.acs, trace[|trace| - 1].api).value.Pools; i < |pools| ==> pools[i] == m.Pools[i]
  {
    hide Going, Stopped, Found;
    LastStored(w, ch, m, trace, done);
  }

  /** Version and tags after a completed update. */
  lemma AttributesByValues(w: Services, ch: Change, m: ApiModel, trace: seq<Snapshot>)
    requires Trace(w, ch, trace, Steps(ch)) && |trace| >= 2 && Stored(w.acs, trace[0].api) == Some(m)
    ensures Stored(w.acs, trace[|trace| - 1].api).Some?
    ensures var m' := Stored(w.acs, trace[|trace| - 1].api).value;
            && m'.OrchestratorVersion
               == (if ch.oldVersion != ch.newVersion then ch.newVersion else m.OrchestratorVersion)
            && m'.Tags == (if ch.oldTags != ch.newTags then ExpandedTags(ch.newTags) else m.Tags)
    ensures ch.oldVersion == ch.newVersion ==> trace[1] == trace[0]
  {
    hide Going, Stopped, PoolsAfter, ExpandedTags;
    CompletedUpdate(w, ch, m, trace);
    NoUpgrade(w, ch, trace, Steps(ch));
  }

  /** The counts marked are those of the pools before the failing step, or of all, and no others. */
  lemma MarkedByValues(w: Services, ch: Change, trace: seq<Snapshot>, done: nat)
    requires Trace(w, ch, trace, done)
    ensures forall i: nat :: CountMark(i) in Marks(ch, done) <==> i < |ch.newCounts| && i + 2 <= done
    ensures VersionMark in Marks(ch, done) <==> done >= 1 && ch.oldVersion != ch.newVersion
    ensures TagsMark in Marks(ch, done) <==> done == |ch.newCounts| + 2 && ch.oldTags != ch.newTags
  {
    hide Going, Stopped;
  }

  // ---- what Terraform keeps ----

  /** The attributes in the Terraform state that an update is about. */
  datatype State = State(apiModel: Bytes, version: Bytes, counts: seq<int>, tags: Tags)

  function Prior(ch: Change, api: Bytes): State {
    State(api, ch.oldVersion, ch.oldCounts, ch.oldTags)
  }

  function Planned(ch: Change, api: Bytes): State {
    State(api, ch.newVersion, ch.newCounts, ch.newTags)
  }

  /**
   In partial mode, Terraform keeps the new values of marked attributes only.  The mark of a pool's count names no
   attribute, as it would have to be that of all pools; and nobody marks the API model.
   */
  function Kept(prior: State, planned: State, marked: set<Mark>, partial: bool): State {
    if !partial then planned
    else prior.(version := if VersionMark in marked then planned.version else prior.version,
                tags := if TagsMark in marked then planned.tags else prior.tags)
  }

  /** What is kept of an update of which the given number of steps succeeded. */
  ghost function KeptAfter(ch: Change, trace: seq<Snapshot>, done: nat): State
    requires trace != []
  {
    Kept(Prior(ch, trace[0].api), Planned(ch, trace[|trace| - 1].api), Marks(ch, done), done < Steps(ch))
  }

  /** Of a failed update the old model, the old counts and the old tags are kept, and the new version after its step. */
  lemma KeptByValues(w: Services, ch: Change, trace: seq<Snapshot>, done: nat)
    requires Trace(w, ch, trace, done) && |trace| >= 2
    ensures var kept := KeptAfter(ch, trace, done);
            if done < |ch.newCounts| + 2
            then kept == State(trace[0].api, if done >= 1 then ch.newVersion else ch.oldVersion, ch.oldCounts,
                               ch.oldTags)
            else kept == State(trace[|trace| - 1].api, ch.newVersion, ch.newCounts, ch.newTags)
  {
    hide Going, Stopped;
  }

  /**
   The version kept is that of the model kept if and only if the update completed, changed no version, or failed
   at the version: a later failure keeps the new version beside the old model.
   */
  lemma KeptVersionIff(w: Services, ch: Change, m: ApiModel, trace: seq<Snapshot>, done: nat)
    requires Trace(w, ch, trace, done) && |trace| >= 2
    requires Stored(w.acs, trace[0].api) == Some(m) && m.OrchestratorVersion == ch.oldVersion
    ensures var kept := KeptAfter(ch, trace, done);
            && Stored(w.acs, kept.apiModel).Some?
            && (kept.version == Stored(w.acs, kept.apiModel).value.OrchestratorVersion <==>
                  done == Steps(ch) || done == 0 || !ch.Version())
  {
    hide Going, Stopped, PoolsAfter;
    if done == Steps(ch) {
      CompletedUpdate(w, ch, m, trace);
    }
  }

  /**
   A count that a failed update has carried out is not kept: the count in the model kept is that of the pool if and
   only if it was the new one before.
   */
  lemma KeptCountIff(w: Services, ch: Change, m: ApiModel, trace: seq<Snapshot>, done: nat, i: nat)
    requires Trace(w, ch, trace, done) && Stored(w.acs, trace[0].api) == Some(m) && DistinctPools(m)
    requires i < |m.Pools| && PoolInv(w.naming, trace[1].vms, PoolOf(w.acs, m, i)) && Viewed(w, ch, m, trace, i)
    requires Changed(ch, i) && i + 1 < done < Steps(ch)
    ensures Stored(w.acs, KeptAfter(ch, trace, done).apiModel) == Some(m)
    ensures m.Pools[i].Count == |PoolNames(trace[|trace| - 1].vms, PoolOf(w.acs, m, i))| <==>
              m.Pools[i].Count == ch.newCounts[i]
  {
    hide Trace, PoolInv, PoolOf, DistinctPools, Viewed;
    UpdateSafety(w, ch, m, trace, done, i);
  }

  // ---- repeating an update ----

  /** An update from one snapshot to the next, of which Terraform keeps what it keeps. */
  ghost predicate Applied(w: Services, ch: Change, s: Snapshot, s': Snapshot, trace: seq<Snapshot>, done: nat) {
    && Trace(w, ch, trace, done) && |trace| >= 2 && trace[0] == s
    && s' == trace[|trace| - 1].(api := KeptAfter(ch, trace, done).apiModel)
  }

  /** The first pool has n VMs, and its stored count is another. */
  ghost predicate StaleAt(w: Services, s: Snapshot, pool: PoolRef, count: int, n: nat) {
    match Stored(w.acs, s.api)
    case None => false
    case Some(m) =>
      && m.Pools != [] && DistinctPools(m) && m.Pools[0].Count == count != n && PoolOf(w.acs, m, 0) == pool
      && PoolInv(w.naming, s.vms, pool) && |PoolNames(s.vms, pool)| == n
  }

  /** An update to n VMs in the first pool, with no new version, whose scan of the pool has a full view. */
  ghost predicate AppliedTo(w: Services, ch: Change, s: Snapshot, s': Snapshot, pool: PoolRef, n: nat) {
    && Changed(ch, 0) && ch.newCounts[0] == n && !ch.Version()
    && FullView(w.naming, s.vms, pool, Page(w, s), n)
    && exists trace, done :: Applied(w, ch, s, s', trace, done)
  }

  /**
   A failed update that has given the first pool its new size leaves it stale, unless the old count
   was right already.
   */
  lemma FailureLeavesStale(w: Services, ch: Change, m: ApiModel, s: Snapshot, s': Snapshot, trace: seq<Snapshot>,
                           done: nat)
    requires Applied(w, ch, s, s', trace, done) && Stored(w.acs, s.api) == Some(m) && m.Pools != [] && DistinctPools(m)
    requires PoolInv(w.naming, trace[1].vms, PoolOf(w.acs, m, 0)) && Viewed(w, ch, m, trace, 0)
    requires Changed(ch, 0) && 2 <= done < Steps(ch) && m.Pools[0].Count != ch.newCounts[0]
    ensures ch.newCounts[0] >= 1 && StaleAt(w, s', PoolOf(w.acs, m, 0), m.Pools[0].Count, ch.newCounts[0])
  {
    hide Trace, PoolInv, PoolOf, DistinctPools, Viewed;
    TraceLength(w, ch, trace, done);
    PositiveCount(w, ch, trace, done, 0);
    UpdateSafety(w, ch, m, trace, done, 0);
  }

  /** A scan that finds the pool at the new size leaves it alone. */
  lemma IdleStep(w: Services, ch: Change, m: ApiModel, trace: seq<Snapshot>, done: nat, n: nat)
    requires Trace(w, ch, trace, done) && Stored(w.acs, trace[0].api) == Some(m) && m.Pools != []
    requires |trace| >= 3 && Changed(ch, 0) && ch.newCounts[0] == n
             && |PoolNames(trace[1].vms, PoolOf(w.acs, m, 0))| == n
    requires SeesPool(trace[1].vms, PoolOf(w.acs, m, 0), Page(w, trace[1]))
    ensures trace[2].vms == trace[1].vms
  {
    hide Trace, SavedAfter, Scanned, PoolNames, VersionStep, TagsStep;
    StepAt(w, ch, trace, done, 1);
    StoredPools(w, ch, m, trace, done, 1);
    var s, s', stored := trace[1], trace[2], Stored(w.acs, trace[1].api).value;
    if s'.vms != s.vms {
      SameTarget(w.acs, m, stored, 0);
      var pool := PoolOf(w.acs, m, 0);
      assert ScansTo(w.naming, s.vms, Page(w, s), pool);
      FullScan(w.naming, s.vms, pool, Page(w, s));
    }
  }

  /** The first pool during such an update. */
  lemma PoolStays(w: Services, ch: Change, m: ApiModel, trace: seq<Snapshot>, done: nat, n: nat)
    requires Trace(w, ch, trace, done) && Stored(w.acs, trace[0].api) == Some(m) && m.Pools != [] && DistinctPools(m)
    requires |trace| >= 2 && Changed(ch, 0) && ch.newCounts[0] == n
    requires |PoolNames(trace[1].vms, PoolOf(w.acs, m, 0))| == n
    requires SeesPool(trace[1].vms, PoolOf(w.acs, m, 0), Page(w, trace[1]))
    ensures SamePool(trace[1].vms, trace[|trace| - 1].vms, PoolOf(w.acs, m, 0))
  {
    hide Trace, PoolOf, DistinctPools, PoolNames;
    if |trace| >= 3 {
      IdleStep(w, ch, m, trace, done, n);
      PoolUntouched(w, ch, m, trace, done, 0, 2, |trace| - 1);
    }
  }

  /** The stored model after such an update. */
  lemma StaysStored(w: Services, ch: Change, m: ApiModel, trace: seq<Snapshot>, n: nat)
    requires Trace(w, ch, trace, Steps(ch)) && Stored(w.acs, trace[0].api) == Some(m) && m.Pools != []
    requires Changed(ch, 0) && ch.newCounts[0] == n && Found(w, m, trace, 0) == n
    ensures var m' := Stored(w.acs, trace[|trace| - 1].api);
            && m'.Some? && |m'.value.Pools| == |m.Pools| && SamePools(m, m'.value) && m'.value.Pools[0] == m.Pools[0]
  {
    hide Going, Stopped, Found;
    LastStored(w, ch, m, trace, Steps(ch));
  }

  /**
   Once the first pool has the size asked for and the stored count is another, an update that asks for that size
   changes neither, whether it completes or fails.
   */
  lemma StaleStays(w: Services, ch: Change, s: Snapshot, s': Snapshot, pool: PoolRef, count: int, n: nat)
    requires StaleAt(w, s, pool, count, n) && AppliedTo(w, ch, s, s', pool, n)
    ensures StaleAt(w, s', pool, count, n)
  {
    hide Trace, PoolInv, DistinctPools, PoolNames, Found, SamePool, FullView, Marks;
    var m := Stored(w.acs, s.api).value;
    var trace, done :| Applied(w, ch, s, s', trace, done);
    NoUpgrade(w, ch, trace, done);
    TraceLength(w, ch, trace, done);
    ViewSees(w.naming, s.vms, pool, Page(w, s), n);
    PoolStays(w, ch, m, trace, done, n);
    SamePoolInv(w.naming, s.vms, s'.vms, pool);
    SameSize(s.vms, s'.vms, pool);
    if done == Steps(ch) {
      FoundIsSize(w, ch, m, trace, done, 0);
      StaysStored(w, ch, m, trace, n);
      SameDistinct(m, Stored(w.acs, s'.api).value);
    }
  }

  lemma SameDistinct(m: ApiModel, m': ApiModel)
    requires SamePools(m, m') && DistinctPools(m)
    ensures DistinctPools(m')
  {
  }

  /**
   So however often the update is repeated, the stored count stays what it was, and what is read back never is what
   was asked for.
   */
  lemma {:induction false} NeverStored(w: Services, states: seq<Snapshot>, changes: seq<Change>, pool: PoolRef,
                                       count: int, n: nat, k: nat)
    requires k < |states| == |changes| + 1 && StaleAt(w, states[0], pool, count, n)
    requires forall i :: 0 <= i < |changes| ==> AppliedTo(w, changes[i], states[i], states[i + 1], pool, n)
    ensures StaleAt(w, states[k], pool, count, n)
  {
    hide StaleAt, AppliedTo;
    if k > 0 {
      NeverStored(w, states, changes, pool, count, n, k - 1);
      StaleStays(w, changes[k - 1], states[k - 1], states[k], pool, count, n);
    }
  }
}
