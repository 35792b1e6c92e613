/**
 An update that everything is in order for: one pool of one VM, stored with a count of two, is to have one.  It
 shows that what the theorems on completing updates ask for can be had, and that such an update stores the
 old count nevertheless.
 */
module EquippedUpdate {
  import opened Results
  import opened Text
  import opened ResourceIDs
  import opened ResourceIDFormat
  import opened Import
  import opened Certificates
  import opened Clusters
  import opened Handover
  import opened KeyVaults
  import opened Kubernetes
  import opened AgentPools
  import opened Authentication
  import opened UUIDText
  import opened ClusterTemplates
  import opened TerraformState
  import opened ClusterScale
  import opened ClusterUpdate
  import opened UpdateProperties
  import opened UpdateRuns

  const X: Bytes := "x"

  const A: Bytes := "11111111"
  const B: Bytes := "2222"
  const C: Bytes := "3333"
  const D: Bytes := "4444"
  const E: Bytes := "555555555555"

  const UUID: Bytes := Dashed(A, B, C, D, E)

  const GROUP: Bytes := "g"
  const VAULT_NAME: Bytes := "v"
  const DEPLOYMENT: Bytes := "d"
  const SECRET: Bytes := "secret"

  const RECORD := ResourceID(UUID, GROUP, [], map[VAULTS := VAULT_NAME, DEPLOYMENTS := DEPLOYMENT])

  const ORDER: seq<Bytes> := [VAULTS, DEPLOYMENTS]

  const ID: Bytes := Print(RECORD, ORDER)

  const VAULT: Vault := map[SlotSecret(CaCrt, X) := X, SlotSecret(KubeConfigCrt, X) := X,
                            SlotSecret(KubeConfigKey, X) := X, SECRET := X]

  const KEY_VAULTS: Vaults := map[VaultKey(GROUP, VAULT_NAME) := VAULT]

  function Model(certs: Certs): ApiModel {
    ApiModel(X, X, X, [Pool(X, 2, X, false, [])], References(certs, ID, X), map[], X, ID, SECRET,
             Attributes(1, X, X, [X], None, UUID, []))
  }

  const CHANGE := Change(X, X, [2], [1], map[], map[])

  const NAMING := Naming((pool, i) => X, n => Some(0), n => None)

  function ServicesFor(m: ApiModel, g: Group): Services {
    Services(AcsEngine(_ => [], _ => Some(m), _ => Some([]), _ => true, _ => []), NAMING, OnePage(g), KEY_VAULTS,
             ID, true)
  }

  /** The group's only VM is on the page. */
  function OnePage(g: Group): Paging {
    (k: nat, h: Group) => if h == g && X in g then [X] else []
  }

  lemma PlainTexts()
    ensures Plain(UUID) && UUID != [] && Plain(X) && Plain([]) && Plain(VAULTS) && Plain(DEPLOYMENTS)
    ensures Plain(GROUP) && Plain(VAULT_NAME) && Plain(DEPLOYMENT)
  {
    assert Plain(A) && Plain(B) && Plain(C) && Plain(D) && Plain(E) && Plain("-");
  }

  lemma RecordPrintable()
    ensures Printable(RECORD, ORDER)
  {
    hide Plain;
    PlainTexts();
    assert ORDER[0] == VAULTS && ORDER[1] == DEPLOYMENTS;
    LastSegment();
  }

  lemma LastSegment()
    ensures !EndsInSpace(PrintedSegments(RECORD, ORDER))
  {
  }

  lemma IDParses()
    ensures Parse(ID) == Success(RECORD) && VaultOf(ID) == Some(VaultKey(GROUP, VAULT_NAME))
    ensures DeploymentName(RECORD.Path) == DEPLOYMENT
  {
    hide Printable, Parse, Print;
    RecordPrintable();
    ParsePrint(RECORD, ORDER);
  }

  lemma DigitsGiven()
    ensures Parts(A, B, C, D, E) && SomeNonzero(A + B + C + D + E)
  {
    assert AllHex(A) && AllHex(B) && AllHex(C) && AllHex(D) && AllHex(E);
    HexDigitsListed(A);
    HexDigitsListed(B);
    HexDigitsListed(C);
    HexDigitsListed(D);
    HexDigitsListed(E);
    assert (A + B + C + D + E)[0] == A[0] != '0';
  }

  lemma UUIDProper()
    ensures IsProperUUID(UUID)
  {
    hide IsProperUUID;
    DigitsGiven();
    DashedForm(A, B, C, D, E);
  }

  lemma ClientCanBeSet(m: ApiModel)
    requires m.VaultID == ID && m.SecretName == SECRET && m.Rest.ClientID == UUID
    ensures ClientReady(KEY_VAULTS, ID, m)
  {
    hide Parse, IsProperUUID, Print;
    IDParses();
    UUIDProper();
    assert VAULT[SECRET] == X;
  }

  lemma ModelSettled(certs: Certs)
    requires Complete(certs, 1)
    ensures Settled(Model(certs))
  {
    hide Reference, Print;
    ReferencesComplete(certs, ID, X, 1);
    ReferencesReplaceAllIff(certs, ID, X);
  }

  lemma ModelProfiles(certs: Certs)
    ensures ProfilesSet(Model(certs))
  {
    hide References;
  }

  lemma KubeConfigMade(m: ApiModel, g: Group, m': ApiModel)
    requires Settled(m) && m.VaultID == ID && m.DNSPrefix == X && SameIdentity(m, m')
    ensures KubeConfigReadable(ServicesFor(m, g).acs, KEY_VAULTS, m')
  {
    hide Parse, Print, SlotSecret, VaultOf;
    IDParses();
  }

  // ---- the pool ----

  function PoolFor(m: ApiModel): PoolRef
    requires m.Pools != []
  {
    PoolRef(m.Pools[0].Name, [], m.Pools[0].Windows)
  }

  function OneVM(pool: PoolRef): Group {
    map[X := NewVM(pool)]
  }

  /** The pool is X alone, which its listing shows and a scan can read. */
  lemma OneVMPool(pool: PoolRef, page: seq<Bytes>)
    requires !pool.windows && page == [X]
    ensures var g := OneVM(pool);
            && PoolNames(g, pool) == {X} && PoolInv(NAMING, g, pool) && ScansTo(NAMING, g, page, pool)
            && FullView(NAMING, g, pool, page, 1) && CanReach(NAMING, g, pool, page, 1)
            && ScanListing(NAMING, g, page, pool) == Success(Scan(0, -1, [X])) && Scanned(g, page, pool) == 1
  {
    var g := OneVM(pool);
    NewVMOwn(pool);
    assert Matches(g[X], pool);
    assert PoolNames(g, pool) == {X};
    ScanOfOne(NAMING, g, pool, X);
    assert Elements(page) == {X} by { assert page[0] == X; }
    ScannedSize(NAMING, g, page, pool);
  }

  // ---- the update ----

  function At(m: ApiModel): Snapshot
    requires m.Pools != []
  {
    Snapshot([], OneVM(PoolFor(m)), 0)
  }

  function ServicesOfModel(m: ApiModel): Services
    requires m.Pools != []
  {
    ServicesFor(m, OneVM(PoolFor(m)))
  }

  /** All steps succeed, and change nothing. */
  lemma StepsDone(m: ApiModel, k: nat)
    requires m.Pools == [Pool(X, 2, X, false, [])] && Settled(m) && k < 3
    requires m.VaultID == ID && m.DNSPrefix == X && m.SecretName == SECRET && m.Rest.ClientID == UUID && m.Location == X
    ensures Tried(ServicesOfModel(m), CHANGE, k, At(m), At(m), true)
  {
    hide Settled, Parse, Print, ClientReady, PoolNames, PoolInv, FullView, ScansTo, Scanned, ScanListing, IsPage;
    var w, s, pool := ServicesOfModel(m), At(m), PoolFor(m);
    if k == 1 {
      OneVMPool(pool, Page(w, s));
      ClientCanBeSet(m);
      IDParses();
      assert PoolOf(w.acs, m, 0) == pool;
    }
  }

  lemma StepsTraced(m: ApiModel)
    requires m.Pools == [Pool(X, 2, X, false, [])] && Settled(m)
    requires m.VaultID == ID && m.DNSPrefix == X && m.SecretName == SECRET && m.Rest.ClientID == UUID && m.Location == X
    ensures var s := At(m); Trace(ServicesOfModel(m), CHANGE, [s, s, s, s], 3)
  {
    hide Settled, Tried;
    forall k: nat | k < 3
      ensures Tried(ServicesOfModel(m), CHANGE, k, At(m), At(m), true)
    {
      StepsDone(m, k);
    }
  }

  /** The hypotheses of UpdateCompletesIff and CompletedCanRead, with a change of count among the steps. */
  ghost predicate InOrder(w: Services, ch: Change, m: ApiModel, trace: seq<Snapshot>) {
    && Trace(w, ch, trace, Steps(ch)) && |trace| >= 2 && Stored(w.acs, trace[0].api) == Some(m) && w.reliable
    && Equipped(w, ch, m) && DistinctPools(m) && AllSeen(w, ch, m, trace) && AllServed(w, ch, m, trace)
    && ProfilesSet(m) && Parse(w.id).Success? && (forall i :: 0 <= i < |m.Pools| ==> PoolSet(m.Pools[i]))
    && Changed(ch, 0)
  }

  lemma SamePoolFor(m: ApiModel)
    requires m.Pools != []
    ensures PoolOf(ServicesOfModel(m).acs, m, 0) == PoolFor(m)
  {
  }

  lemma ModelEquipped(m: ApiModel)
    requires m.Pools == [Pool(X, 2, X, false, [])] && Settled(m)
    requires m.VaultID == ID && m.DNSPrefix == X && m.SecretName == SECRET && m.Rest.ClientID == UUID && m.Location == X
    ensures Equipped(ServicesOfModel(m), CHANGE, m)
  {
    hide Settled, Parse, Print, ClientReady, KubeConfigReadable, SameIdentity;
    ClientCanBeSet(m);
    IDParses();
    forall m': ApiModel | SameIdentity(m, m')
      ensures KubeConfigReadable(ServicesOfModel(m).acs, KEY_VAULTS, m')
    {
      KubeConfigMade(m, OneVM(PoolFor(m)), m');
    }
  }

  lemma InOrderModel(m: ApiModel)
    requires m.Pools == [Pool(X, 2, X, false, [])] && Settled(m) && ProfilesSet(m)
    requires m.VaultID == ID && m.DNSPrefix == X && m.SecretName == SECRET && m.Rest.ClientID == UUID && m.Location == X
    ensures var s := At(m); InOrder(ServicesOfModel(m), CHANGE, m, [s, s, s, s])
  {
    hide Settled, Parse, Print, PoolNames, PoolInv, FullView, ScansTo, Scanned, IsPage, Tried, CanReach, ProfilesSet,
         Equipped, Trace, PoolOf;
    StepsTraced(m);
    ModelEquipped(m);
    OneVMPool(PoolFor(m), Page(ServicesOfModel(m), At(m)));
    IDParses();
    SamePoolFor(m);
  }

  lemma AlreadyStale(m: ApiModel)
    requires m.Pools == [Pool(X, 2, X, false, [])] && m.DNSPrefix == X
    ensures StaleAt(ServicesOfModel(m), At(m), PoolOf(ServicesOfModel(m).acs, m, 0), 2, 1)
  {
    hide PoolNames, PoolInv, FullView, IsPage, ScansTo, Scanned, CanReach;
    OneVMPool(PoolFor(m), [X]);
  }

  lemma AppliedOnce(w: Services, ch: Change, s: Snapshot, trace: seq<Snapshot>, pool: PoolRef, n: nat)
    requires Trace(w, ch, trace, Steps(ch)) && |trace| >= 2 && trace[0] == s == trace[|trace| - 1]
    requires Changed(ch, 0) && ch.newCounts[0] == n && !ch.Version()
    requires FullView(w.naming, s.vms, pool, Page(w, s), n)
    ensures AppliedTo(w, ch, s, s, pool, n)
  {
    hide Trace, FullView;
    assert Applied(w, ch, s, s, trace, Steps(ch));
  }

  lemma PageShowsPool(m: ApiModel)
    requires m.Pools == [Pool(X, 2, X, false, [])]
    ensures FullView(NAMING, At(m).vms, PoolFor(m), Page(ServicesOfModel(m), At(m)), 1)
  {
    hide PoolNames, PoolInv, FullView, ScansTo, Scanned, CanReach;
    OneVMPool(PoolFor(m), Page(ServicesOfModel(m), At(m)));
  }

  lemma Repeated(m: ApiModel)
    requires m.Pools == [Pool(X, 2, X, false, [])]
    requires var s := At(m); Trace(ServicesOfModel(m), CHANGE, [s, s, s, s], 3)
    ensures AppliedTo(ServicesOfModel(m), CHANGE, At(m), At(m), PoolOf(ServicesOfModel(m).acs, m, 0), 1)
  {
    hide FullView, Trace, PoolOf, AppliedTo, Page;
    var s := At(m);
    SamePoolFor(m);
    PageShowsPool(m);
    AppliedOnce(ServicesOfModel(m), CHANGE, s, [s, s, s, s], PoolFor(m), 1);
  }

  /**
   There is such an update.  It completes, and what it stores is not what was asked for; and no repetition of it
   will store that.
   */
  lemma EquippedUpdateExists() returns (w: Services, m: ApiModel, trace: seq<Snapshot>)
    ensures InOrder(w, CHANGE, m, trace) && |m.Pools| == 1
    ensures Stored(w.acs, trace[3].api) == Some(m) && Expected(m, CHANGE) != m
    ensures StaleAt(w, trace[0], PoolOf(w.acs, m, 0), 2, 1)
    ensures AppliedTo(w, CHANGE, trace[0], trace[0], PoolOf(w.acs, m, 0), 1)
  {
    hide Settled, ProfilesSet, Print, Trace, Equipped, AllSeen, AllServed, StaleAt, AppliedTo, References;
    var certs := SomeComplete(1);
    m := Model(certs);
    ModelSettled(certs);
    ModelProfiles(certs);
    w := ServicesOfModel(m);
    var s := At(m);
    trace := [s, s, s, s];
    InOrderModel(m);
    AlreadyStale(m);
    Repeated(m);
    assert Expected(m, CHANGE).Pools[0].Count == 1;
  }
}
