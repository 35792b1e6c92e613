/**
 The VMs of a resource group, what a scan of them finds for one agent pool, and what every
 scaling does to them (internal/operations/scale_client.go, acsengine/cluster_scale.go).
 */
module AgentPools {
  import opened Results
  import opened Text
  import opened Clusters

  // ---- virtual machines ----

  /** The "poolName" and "resourceNameSuffix" tags, and whether the image is a Windows Server one. */
  datatype VM = VM(poolName: Option<Bytes>, nameSuffix: Option<Bytes>, windows: bool)

  /** A resource group: the VMs by name. */
  type Group = map<Bytes, VM>

  datatype PoolRef = PoolRef(name: Bytes, suffix: Bytes, windows: bool)

  /** How acs-engine names VMs and takes the names apart; windowsParts yields the pool index and the VM index. */
  datatype Naming = Naming(
    name: (PoolRef, nat) -> Bytes,
    linuxIndex: Bytes -> Option<nat>,
    windowsParts: Bytes -> Option<(nat, nat)>)
  {
    function IndexOf(windows: bool, n: Bytes): Option<nat> {
      if windows then
        var parts := windowsParts(n);
        if parts.None? then None else Some(parts.value.1)
      else linuxIndex(n)
    }

    /** The indexes in [lo, hi) can be read off the names printed with them. */
    ghost predicate ParsesWhatItPrints(pool: PoolRef, lo: nat, hi: int) {
      forall i: nat :: lo <= i < hi ==> IndexOf(pool.windows, name(pool, i)) == Some(i)
    }
  }

  predicate Tagged(vm: VM) {
    vm.poolName.Some? && vm.nameSuffix.Some?
  }

  predicate Matches(vm: VM, pool: PoolRef) {
    Tagged(vm) && EqualFold(vm.poolName.value, pool.name) && Contains(pool.suffix, vm.nameSuffix.value)
  }

  function PoolNames(g: Group, pool: PoolRef): set<Bytes> {
    set n | n in g && Matches(g[n], pool)
  }

  function Index(nm: Naming, g: Group, n: Bytes): Option<nat>
    requires n in g
  {
    nm.IndexOf(g[n].windows, n)
  }

  // ---- listings and scans ----

  ghost predicate NoDuplicates<T>(l: seq<T>) {
    forall i, j :: 0 <= i < j < |l| ==> l[i] != l[j]
  }

  /** A page of a listing: some VMs of the group, each once, in whatever order the service returns them. */
  ghost predicate IsPage(page: seq<Bytes>, g: Group) {
    NoDuplicates(page) && forall i :: 0 <= i < |page| ==> page[i] in g
  }

  /** The first page that the service returns for a group; the number tells one listing from the next. */
  type Paging = f: (nat, Group) -> seq<Bytes> | forall k: nat, g: Group :: IsPage(f(k, g), g)
    witness ((k: nat, g: Group) => [])

  /** The page has every VM of the pool. */
  ghost predicate SeesPool(g: Group, pool: PoolRef, page: seq<Bytes>) {
    PoolNames(g, pool) <= Elements(page)
  }

  function Elements<T>(l: seq<T>): set<T> {
    set x | x in l
  }

  datatype Scan = Scan(highest: nat, windowsIndex: int, names: seq<Bytes>)

  /** Scanning one more VM. */
  function ScanVM(nm: Naming, g: Group, n: Bytes, pool: PoolRef, s: Scan): Result<Scan, Error>
    requires n in g
  {
    var vm := g[n];
    if !Tagged(vm) then Failure(NilDereference)
    else if !Matches(vm, pool) then Success(s)
    else
      var index := Index(nm, g, n);
      if index.None? then Failure(BadVMName)
      else Success(Scan(if index.value > s.highest then index.value else s.highest,
                        if vm.windows then nm.windowsParts(n).value.0 else s.windowsIndex,
                        s.names + [n]))
  }

  function ScanListing(nm: Naming, g: Group, l: seq<Bytes>, pool: PoolRef): Result<Scan, Error>
    requires forall i :: 0 <= i < |l| ==> l[i] in g
  {
    if l == [] then Success(Scan(0, -1, []))
    else
      var before := ScanListing(nm, g, l[..|l| - 1], pool);
      if before.Failure? then before else ScanVM(nm, g, l[|l| - 1], pool, before.value)
  }

  /** The scan of a longer prefix goes on from that of a shorter one; where it fails, so does the whole scan. */
  lemma ScanPrefix(nm: Naming, g: Group, l: seq<Bytes>, pool: PoolRef, k: nat)
    requires k < |l| && forall i :: 0 <= i < |l| ==> l[i] in g
    ensures ScanListing(nm, g, l[..k + 1], pool) ==
            var before := ScanListing(nm, g, l[..k], pool);
            if before.Failure? then before else ScanVM(nm, g, l[k], pool, before.value)
    ensures ScanListing(nm, g, l[..k + 1], pool).Failure? ==>
              ScanListing(nm, g, l, pool) == ScanListing(nm, g, l[..k + 1], pool)
  {
    assert l[..k + 1][..k] == l[..k];
    if ScanListing(nm, g, l[..k + 1], pool).Failure? {
      ScanStaysFailed(nm, g, l, pool, k + 1);
    }
  }

  lemma {:induction false} ScanStaysFailed(nm: Naming, g: Group, l: seq<Bytes>, pool: PoolRef, k: nat)
    requires k <= |l| && forall i :: 0 <= i < |l| ==> l[i] in g
    requires ScanListing(nm, g, l[..k], pool).Failure?
    ensures ScanListing(nm, g, l, pool) == ScanListing(nm, g, l[..k], pool)
    decreases |l| - k
  {
    if k < |l| {
      assert l[..k + 1][..k] == l[..k];
      ScanStaysFailed(nm, g, l, pool, k + 1);
    } else {
      assert l[..k] == l;
    }
  }

  /** The sublist of a listing that belongs to the pool, in listing order. */
  function Matching(g: Group, l: seq<Bytes>, pool: PoolRef): seq<Bytes>
    requires forall i :: 0 <= i < |l| ==> l[i] in g
  {
    if l == [] then []
    else
      var n := l[|l| - 1];
      Matching(g, l[..|l| - 1], pool) + if Matches(g[n], pool) then [n] else []
  }

  /** highest is the greatest index among names, or 0 when there are none. */
  ghost predicate Greatest(nm: Naming, g: Group, names: seq<Bytes>, highest: nat) {
    && (forall i :: 0 <= i < |names| ==>
          names[i] in g && Index(nm, g, names[i]).Some? && Index(nm, g, names[i]).value <= highest)
    && (if names == [] then highest == 0
        else exists i :: 0 <= i < |names| && names[i] in g && Index(nm, g, names[i]) == Some(highest))
  }

  lemma ScanVMGreatest(nm: Naming, g: Group, n: Bytes, pool: PoolRef, s: Scan)
    requires n in g && Greatest(nm, g, s.names, s.highest) && ScanVM(nm, g, n, pool, s).Success?
    ensures var s' := ScanVM(nm, g, n, pool, s).value; Greatest(nm, g, s'.names, s'.highest)
  {
    var s' := ScanVM(nm, g, n, pool, s).value;
    if Matches(g[n], pool) {
      assert s'.names[|s.names|] == n;
      assert forall i :: 0 <= i < |s.names| ==> s'.names[i] == s.names[i];
      if s.names != [] {
        var i :| 0 <= i < |s.names| && s.names[i] in g && Index(nm, g, s.names[i]) == Some(s.highest);
        assert s'.names[i] == s.names[i];
      }
    }
  }

  /** What a listing must be like for a scan of it to succeed. */
  ghost predicate Readable(nm: Naming, g: Group, l: seq<Bytes>, pool: PoolRef)
    requires forall i :: 0 <= i < |l| ==> l[i] in g
  {
    forall i :: 0 <= i < |l| ==> Tagged(g[l[i]]) && (Matches(g[l[i]], pool) ==> Index(nm, g, l[i]).Some?)
  }

  lemma {:induction false} ScanSucceedsIff(nm: Naming, g: Group, l: seq<Bytes>, pool: PoolRef)
    requires forall i :: 0 <= i < |l| ==> l[i] in g
    ensures ScanListing(nm, g, l, pool).Success? <==> Readable(nm, g, l, pool)
  {
    if l != [] {
      var front, n := l[..|l| - 1], l[|l| - 1];
      ScanSucceedsIff(nm, g, front, pool);
      assert forall i :: 0 <= i < |l| ==> l[i] == if i < |front| then front[i] else n;
    }
  }

  lemma {:induction false} ScanFinds(nm: Naming, g: Group, l: seq<Bytes>, pool: PoolRef)
    requires forall i :: 0 <= i < |l| ==> l[i] in g
    requires ScanListing(nm, g, l, pool).Success?
    ensures var s := ScanListing(nm, g, l, pool).value;
            s.names == Matching(g, l, pool) && Greatest(nm, g, s.names, s.highest)
  {
    if l != [] {
      var front, n := l[..|l| - 1], l[|l| - 1];
      ScanFinds(nm, g, front, pool);
      ScanVMGreatest(nm, g, n, pool, ScanListing(nm, g, front, pool).value);
    }
  }

  /**
   A scan fails only on a missing tag or an unreadable matching name; otherwise it finds the
   matching sublist and its greatest index.
   */
  lemma ScanMeaning(nm: Naming, g: Group, l: seq<Bytes>, pool: PoolRef)
    requires forall i :: 0 <= i < |l| ==> l[i] in g
    ensures ScanListing(nm, g, l, pool).Success? <==> Readable(nm, g, l, pool)
    ensures ScanListing(nm, g, l, pool).Success? ==>
              var s := ScanListing(nm, g, l, pool).value;
              s.names == Matching(g, l, pool) && Greatest(nm, g, s.names, s.highest)
  {
    ScanSucceedsIff(nm, g, l, pool);
    if ScanListing(nm, g, l, pool).Success? {
      ScanFinds(nm, g, l, pool);
    }
  }

  lemma {:induction false} MatchingElements(g: Group, l: seq<Bytes>, pool: PoolRef)
    requires forall i :: 0 <= i < |l| ==> l[i] in g
    ensures forall n :: n in Elements(Matching(g, l, pool)) <==> n in Elements(l) && Matches(g[n], pool)
    ensures NoDuplicates(l) ==> NoDuplicates(Matching(g, l, pool))
  {
    if l != [] {
      var front, n := l[..|l| - 1], l[|l| - 1];
      MatchingElements(g, front, pool);
      assert l == front + [n];
      ElementsAppend(front, n);
      var m := Matching(g, front, pool);
      ElementsAppend(m, n);
      if NoDuplicates(l) {
        assert n !in Elements(front);
      }
    }
  }

  lemma ElementsAppend<T>(l: seq<T>, x: T)
    ensures Elements(l + [x]) == Elements(l) + {x}
  {
  }

  lemma {:induction false} ElementsCount<T>(l: seq<T>)
    requires NoDuplicates(l)
    ensures |Elements(l)| == |l|
  {
    if l != [] {
      var front, x := l[..|l| - 1], l[|l| - 1];
      ElementsCount(front);
      assert Elements(l) == Elements(front) + {x};
      assert x !in Elements(front);
    }
  }

  /** A scan that succeeds finds every VM of the pool that is on the page, once. */
  lemma ScanFindsPool(nm: Naming, g: Group, page: seq<Bytes>, pool: PoolRef)
    requires IsPage(page, g) && ScanListing(nm, g, page, pool).Success?
    ensures var s := ScanListing(nm, g, page, pool).value;
            && NoDuplicates(s.names) && Elements(s.names) == PoolNames(g, pool) * Elements(page)
            && |s.names| == |PoolNames(g, pool) * Elements(page)|
            && Greatest(nm, g, s.names, s.highest)
  {
    ScanFinds(nm, g, page, pool);
    MatchingElements(g, page, pool);
    ElementsCount(Matching(g, page, pool));
    assert Elements(Matching(g, page, pool)) == PoolNames(g, pool) * Elements(page);
  }

  // ---- the pool invariant and the pigeonhole fact ----

  /** A non-empty pool whose VM names can be read and carry distinct indexes. */
  ghost predicate PoolInv(nm: Naming, g: Group, pool: PoolRef) {
    && PoolNames(g, pool) != {}
    && (forall n :: n in PoolNames(g, pool) ==> Index(nm, g, n).Some?)
    && forall n, m :: n in PoolNames(g, pool) && m in PoolNames(g, pool) && Index(nm, g, n) == Index(nm, g, m) ==>
         n == m
  }

  function Range(offset: nat, count: int): (r: set<nat>)
    ensures forall i :: i in r <==> offset <= i < count
    ensures |r| == if offset <= count then count - offset else 0
    decreases count - offset
  {
    if offset >= count then {} else Range(offset, count - 1) + {count - 1}
  }

  lemma {:induction false} SubsetCount<T>(a: set<T>, b: set<T>)
    requires a <= b
    ensures |a| <= |b|
    ensures |a| == |b| ==> a == b
  {
    assert b == a + (b - a);
    assert |b| == |a| + |b - a|;
    if |a| == |b| { assert b - a == {}; }
  }

  lemma Pigeonhole(nm: Naming, g: Group, names: seq<Bytes>, highest: nat)
    requires NoDuplicates(names) && Greatest(nm, g, names, highest)
    requires forall i, j :: 0 <= i < j < |names| ==> Index(nm, g, names[i]) != Index(nm, g, names[j])
    ensures |names| <= highest + 1
  {
    var indexes := seq(|names|, i requires 0 <= i < |names| => Index(nm, g, names[i]).value);
    assert NoDuplicates(indexes);
    ElementsCount(indexes);
    SubsetCount(Elements(indexes), Range(0, highest + 1));
  }

  // ---- template count and offset ----

  function TemplateCount(desired: int, highest: int, current: int): int {
    if highest != 0 then desired + highest + 1 - current else desired
  }

  /**
   Between offset and count lie exactly the missing indexes if and only if the pool was not empty;
   the special case for highest == 0 then agrees with the general formula.
   */
  lemma CountExactIff(nm: Naming, g: Group, names: seq<Bytes>, highest: nat, desired: nat)
    requires NoDuplicates(names) && Greatest(nm, g, names, highest) && desired > |names|
    requires forall i, j :: 0 <= i < j < |names| ==> Index(nm, g, names[i]) != Index(nm, g, names[j])
    ensures TemplateCount(desired, highest, |names|) - (highest + 1) == desired - |names| <==> names != []
    ensures names != [] ==> TemplateCount(desired, highest, |names|) == desired + highest + 1 - |names|
    ensures names == [] ==> TemplateCount(desired, highest, |names|) - (highest + 1) == desired - 1
  {
    Pigeonhole(nm, g, names, highest);
  }

  // ---- what one scaling does to the group ----

  function NewVM(pool: PoolRef): VM {
    VM(Some(pool.name), Some(pool.suffix), pool.windows)
  }

  function NewNames(nm: Naming, pool: PoolRef, made: set<nat>): set<Bytes> {
    set i | i in made :: nm.name(pool, i)
  }

  function NewVMs(nm: Naming, pool: PoolRef, made: set<nat>): Group {
    map n | n in NewNames(nm, pool, made) :: NewVM(pool)
  }

  /** A VM of the pool, with the pool's operating system. */
  predicate Own(vm: VM, pool: PoolRef) {
    Matches(vm, pool) && vm.windows == pool.windows
  }

  lemma NewVMOwn(pool: PoolRef)
    ensures Own(NewVM(pool), pool)
  {
    ContainsItself(pool.suffix);
  }

  /**
   A deployment brings up VMs with index in [offset, count): all of them if it succeeds.  A VM of the pool that
   bears one of the names already is brought up again.
   */
  ghost predicate Deployed(nm: Naming, g: Group, pool: PoolRef, offset: nat, count: int, made: set<nat>, g': Group,
                           ok: bool) {
    && made <= Range(offset, count)
    && (forall n :: n in NewNames(nm, pool, made) && n in g ==> Own(g[n], pool))
    && g' == g + NewVMs(nm, pool, made)
    && (ok ==> made == Range(offset, count))
  }

  /** A deletion removes only the given VMs: all of them if it succeeds. */
  ghost predicate Deleted(g: Group, tail: seq<Bytes>, dead: set<Bytes>, g': Group, ok: bool) {
    && dead <= Elements(tail)
    && g' == g - dead
    && (ok ==> dead == Elements(tail))
  }

  lemma NewVMsAdd(nm: Naming, pool: PoolRef, made: set<nat>, i: nat)
    ensures NewNames(nm, pool, made + {i}) == NewNames(nm, pool, made) + {nm.name(pool, i)}
    ensures NewVMs(nm, pool, made + {i}) == NewVMs(nm, pool, made)[nm.name(pool, i) := NewVM(pool)]
  {
    assert NewNames(nm, pool, made + {i}) == NewNames(nm, pool, made) + {nm.name(pool, i)};
  }

  lemma DeployOneMore(nm: Naming, g: Group, pool: PoolRef, offset: nat, count: int, made: set<nat>, g': Group, i: nat)
    requires Deployed(nm, g, pool, offset, count, made, g', false)
    requires offset <= i < count && Usable(nm, g, pool, i)
    ensures Deployed(nm, g, pool, offset, count, made + {i}, g'[nm.name(pool, i) := NewVM(pool)], false)
  {
    var n := nm.name(pool, i);
    NewVMsAdd(nm, pool, made, i);
    AddLast(g, NewVMs(nm, pool, made), n, NewVM(pool));
  }

  lemma AddLast(g: Group, h: Group, n: Bytes, vm: VM)
    ensures (g + h)[n := vm] == g + h[n := vm]
  {
  }

  lemma DeployNothing(nm: Naming, g: Group, pool: PoolRef, offset: nat, count: int)
    ensures Deployed(nm, g, pool, offset, count, {}, g, false)
  {
    assert g + NewVMs(nm, pool, {}) == g;
  }

  lemma DeployFinished(nm: Naming, g: Group, pool: PoolRef, offset: nat, count: int, made: set<nat>, g': Group)
    requires DeployedBelow(nm, g, pool, offset, count, made, g', if offset <= count then count else offset)
    ensures Deployed(nm, g, pool, offset, count, made, g', true) && NamesUsable(nm, g, pool, offset, count)
  {
    assert made == Range(offset, count);
  }

  /** The i-th name of the pool is free, or borne by a VM of the pool. */
  predicate Usable(nm: Naming, g: Group, pool: PoolRef, i: nat) {
    nm.name(pool, i) in g ==> Own(g[nm.name(pool, i)], pool)
  }

  ghost predicate NamesUsable(nm: Naming, g: Group, pool: PoolRef, offset: nat, count: int) {
    forall i: nat :: offset <= i < count ==> Usable(nm, g, pool, i)
  }

  /** In the middle of a deployment, a name can be used if it could be to begin with. */
  lemma StillUsable(nm: Naming, g: Group, pool: PoolRef, offset: nat, count: int, made: set<nat>, g': Group, i: nat)
    requires Deployed(nm, g, pool, offset, count, made, g', false)
    ensures Usable(nm, g', pool, i) <==> Usable(nm, g, pool, i)
  {
    NewVMOwn(pool);
  }

  /** The VMs with index in [offset, i) have been deployed. */
  ghost predicate DeployedBelow(nm: Naming, g: Group, pool: PoolRef, offset: nat, count: int, made: set<nat>,
                                g': Group, i: nat) {
    && Deployed(nm, g, pool, offset, count, made, g', false)
    && NamesUsable(nm, g, pool, offset, i)
    && forall j: nat :: j in made <==> offset <= j < i
  }

  /** The next VM can be deployed exactly if its name could be used to begin with. */
  lemma DeployNext(nm: Naming, g: Group, pool: PoolRef, offset: nat, count: int, made: set<nat>, g': Group, i: nat)
    requires DeployedBelow(nm, g, pool, offset, count, made, g', i) && offset <= i < count
    ensures if Usable(nm, g', pool, i)
            then DeployedBelow(nm, g, pool, offset, count, made + {i}, g'[nm.name(pool, i) := NewVM(pool)], i + 1)
            else !NamesUsable(nm, g, pool, offset, count)
    ensures SomeDeployed(nm, g, pool, offset, count, g', false)
  {
    hide Deployed, Usable;
    StillUsable(nm, g, pool, offset, count, made, g', i);
    if Usable(nm, g', pool, i) {
      DeployOneMore(nm, g, pool, offset, count, made, g', i);
    }
  }

  ghost predicate SomeDeployed(nm: Naming, g: Group, pool: PoolRef, offset: nat, count: int, g': Group, ok: bool) {
    exists made :: Deployed(nm, g, pool, offset, count, made, g', ok)
  }

  ghost predicate SomeDeleted(g: Group, tail: seq<Bytes>, g': Group, ok: bool) {
    exists dead :: Deleted(g, tail, dead, g', ok)
  }

  datatype Direction = Keep | Down | Up

  function DirectionOf(current: int, desired: int): Direction {
    if current == desired then Keep else if current > desired then Down else Up
  }

  ghost predicate ScaledFrom(nm: Naming, g: Group, s: Scan, pool: PoolRef, desired: nat, g': Group, ok: bool) {
    match DirectionOf(|s.names|, desired)
    case Keep => g' == g
    case Down => SomeDeleted(g, s.names[desired..], g', ok)
    case Up => SomeDeployed(nm, g, pool, s.highest + 1, TemplateCount(desired, s.highest, |s.names|), g', ok)
  }

  ghost predicate ScansTo(nm: Naming, g: Group, page: seq<Bytes>, pool: PoolRef) {
    IsPage(page, g) && ScanListing(nm, g, page, pool).Success?
  }

  /**
   One call of scaleCluster, successful or not, for which the service listed the given page: it gave up
   before touching a VM, or scanned the page and acted on it.
   */
  ghost predicate GroupStep(nm: Naming, g: Group, pool: PoolRef, page: seq<Bytes>, desired: nat, g': Group, ok: bool) {
    || (!ok && g' == g)
    || (ScansTo(nm, g, page, pool)
        && ScaledFrom(nm, g, ScanListing(nm, g, page, pool).value, pool, desired, g', ok))
  }

  /** How many VMs of the pool are on the page. */
  ghost function Scanned(g: Group, page: seq<Bytes>, pool: PoolRef): nat {
    if IsPage(page, g) then |Matching(g, page, pool)| else 0
  }

  lemma ScannedSize(nm: Naming, g: Group, page: seq<Bytes>, pool: PoolRef)
    requires ScansTo(nm, g, page, pool)
    ensures |ScanListing(nm, g, page, pool).value.names| == Scanned(g, page, pool)
  {
    ScanFinds(nm, g, page, pool);
  }

  lemma ScannedAll(g: Group, page: seq<Bytes>, pool: PoolRef)
    requires IsPage(page, g) && SeesPool(g, pool, page)
    ensures Scanned(g, page, pool) == |PoolNames(g, pool)|
  {
    MatchingElements(g, page, pool);
    ElementsCount(Matching(g, page, pool));
    assert Elements(Matching(g, page, pool)) == PoolNames(g, pool);
  }

  // ---- when a scaling can succeed ----

  /** After a scan, the names that a scaling deploys. */
  function AddedNames(nm: Naming, pool: PoolRef, s: Scan, desired: nat): set<Bytes> {
    if |s.names| >= desired then {}
    else NewNames(nm, pool, Range(s.highest + 1, TemplateCount(desired, s.highest, |s.names|)))
  }

  /** The names of the VMs that are to be added after a scan can be used. */
  ghost predicate RoomFor(nm: Naming, g: Group, pool: PoolRef, s: Scan, desired: nat) {
    NamesUsable(nm, g, pool, s.highest + 1, TemplateCount(desired, s.highest, |s.names|))
  }

  /** There is something to scan, all of it can be read, and there is room for what has to be added. */
  ghost predicate CanReach(nm: Naming, g: Group, pool: PoolRef, page: seq<Bytes>, desired: nat) {
    && page != [] && ScansTo(nm, g, page, pool)
    && var s := ScanListing(nm, g, page, pool).value;
       |s.names| < desired ==> RoomFor(nm, g, pool, s, desired)
  }

  /** Only VMs of the pool bear names of the pool. */
  ghost predicate NoForeignNames(nm: Naming, g: Group, pool: PoolRef) {
    forall i: nat :: Usable(nm, g, pool, i)
  }

  lemma NameTaken(nm: Naming, g: Group, pool: PoolRef, s: Scan, i: nat)
    requires NoForeignNames(nm, g, pool) && nm.IndexOf(pool.windows, nm.name(pool, i)) == Some(i)
    requires Elements(s.names) == PoolNames(g, pool) && Greatest(nm, g, s.names, s.highest)
    ensures nm.name(pool, i) in g ==> i <= s.highest
  {
    assert Usable(nm, g, pool, i);
    if nm.name(pool, i) in g {
      assert nm.name(pool, i) in PoolNames(g, pool);
      assert nm.name(pool, i) in Elements(s.names);
      assert Index(nm, g, nm.name(pool, i)) == Some(i);
    }
  }

  /**
   If only VMs of the pool bear its names, there is room; and if the scan saw them all, what is added lies above
   them, so that its names are not in use at all.
   */
  lemma FreeUnlessForeign(nm: Naming, g: Group, pool: PoolRef, page: seq<Bytes>, desired: nat)
    requires ScansTo(nm, g, page, pool) && NoForeignNames(nm, g, pool)
    ensures RoomFor(nm, g, pool, ScanListing(nm, g, page, pool).value, desired)
    ensures FullView(nm, g, pool, page, desired) ==>
              AddedNames(nm, pool, ScanListing(nm, g, page, pool).value, desired) !! g.Keys
  {
    if FullView(nm, g, pool, page, desired) {
      var s := ScanListing(nm, g, page, pool).value;
      FullScan(nm, g, pool, page);
      forall i: nat | s.highest + 1 <= i < TemplateCount(desired, s.highest, |s.names|)
        ensures nm.name(pool, i) !in g
      {
        NameTaken(nm, g, pool, s, i);
      }
    }
  }

  lemma NamesDiffer(nm: Naming, pool: PoolRef, lo: nat, hi: int)
    requires nm.ParsesWhatItPrints(pool, lo, hi)
    ensures forall i: nat, j: nat :: lo <= i < j < hi ==> nm.name(pool, i) != nm.name(pool, j)
  {
    forall i: nat, j: nat | lo <= i < j < hi
      ensures nm.name(pool, i) != nm.name(pool, j)
    {
      assert nm.IndexOf(pool.windows, nm.name(pool, i)) == Some(i);
      assert nm.IndexOf(pool.windows, nm.name(pool, j)) == Some(j);
    }
  }

  // ---- one scaling ----

  /** The indexes that a scaling after this scan would use can be read back. */
  ghost predicate ReadsBack(nm: Naming, pool: PoolRef, s: Scan, desired: nat) {
    nm.ParsesWhatItPrints(pool, s.highest + 1, TemplateCount(desired, s.highest, |s.names|))
  }

  /** The page shows the whole pool, and indexes of VMs added on the strength of it can be read back. */
  ghost predicate FullView(nm: Naming, g: Group, pool: PoolRef, page: seq<Bytes>, desired: nat) {
    && SeesPool(g, pool, page)
    && (ScansTo(nm, g, page, pool) ==> ReadsBack(nm, pool, ScanListing(nm, g, page, pool).value, desired))
  }

  lemma FullScan(nm: Naming, g: Group, pool: PoolRef, page: seq<Bytes>)
    requires ScansTo(nm, g, page, pool) && SeesPool(g, pool, page)
    ensures var s := ScanListing(nm, g, page, pool).value;
            && NoDuplicates(s.names) && Elements(s.names) == PoolNames(g, pool) && |s.names| == |PoolNames(g, pool)|
            && Greatest(nm, g, s.names, s.highest)
  {
    ScanFindsPool(nm, g, page, pool);
    assert PoolNames(g, pool) * Elements(page) == PoolNames(g, pool);
  }

  lemma DeletedNames(g: Group, pool: PoolRef, tail: seq<Bytes>, dead: set<Bytes>, g': Group, ok: bool)
    requires Deleted(g, tail, dead, g', ok)
    ensures PoolNames(g', pool) == PoolNames(g, pool) - dead
    ensures forall n :: n in g' ==> n in g && g'[n] == g[n]
  {
  }

  /** Cutting a list without repetitions in two cuts its elements in two. */
  lemma CutElements<T>(names: seq<T>, k: nat)
    requires NoDuplicates(names) && k <= |names|
    ensures Elements(names[..k]) !! Elements(names[k..])
            && Elements(names) == Elements(names[..k]) + Elements(names[k..])
    ensures |Elements(names[..k])| == k && |Elements(names[k..])| == |names| - k
  {
    assert names == names[..k] + names[k..];
    ElementsCount(names[..k]);
    ElementsCount(names[k..]);
  }

  lemma DeletedKeepsPool(nm: Naming, g: Group, pool: PoolRef, s: Scan, desired: nat, dead: set<Bytes>, g': Group,
                         ok: bool)
    requires PoolInv(nm, g, pool) && NoDuplicates(s.names) && Elements(s.names) <= PoolNames(g, pool)
    requires 1 <= desired < |s.names| && Deleted(g, s.names[desired..], dead, g', ok)
    ensures PoolInv(nm, g', pool)
  {
    CutElements(s.names, desired);
    DeletedNames(g, pool, s.names[desired..], dead, g', ok);
    assert s.names[0] in Elements(s.names[..desired]);
    assert s.names[0] in PoolNames(g', pool);
    forall n | n in PoolNames(g', pool)
      ensures Index(nm, g', n) == Index(nm, g, n)
    {
    }
  }

  lemma DeletedSize(g: Group, pool: PoolRef, names: seq<Bytes>, desired: nat, dead: set<Bytes>, g': Group)
    requires NoDuplicates(names) && Elements(names) <= PoolNames(g, pool)
    requires desired < |names| && Deleted(g, names[desired..], dead, g', true)
    ensures |PoolNames(g', pool)| == |PoolNames(g, pool)| - (|names| - desired)
  {
    CutElements(names, desired);
    DeletedNames(g, pool, names[desired..], dead, g', true);
    assert dead <= PoolNames(g, pool);
  }

  lemma DeployedNames(nm: Naming, g: Group, pool: PoolRef, offset: nat, count: int, made: set<nat>, g': Group, ok: bool)
    requires Deployed(nm, g, pool, offset, count, made, g', ok)
    ensures PoolNames(g', pool) == PoolNames(g, pool) + NewNames(nm, pool, made)
    ensures g'.Keys == g.Keys + NewNames(nm, pool, made)
    ensures forall n :: n in g ==> g'[n] == g[n] || (Own(g[n], pool) && Own(g'[n], pool))
    ensures forall n :: n in NewNames(nm, pool, made) ==> n in g' && g'[n] == NewVM(pool)
  {
    hide Matches, Range;
    NewVMOwn(pool);
  }

  /** The VMs that were scanned keep their indexes. */
  lemma OldIndexes(nm: Naming, g: Group, pool: PoolRef, s: Scan, offset: nat, count: int, made: set<nat>,
                   g': Group, ok: bool)
    requires PoolInv(nm, g, pool) && Elements(s.names) == PoolNames(g, pool) && Greatest(nm, g, s.names, s.highest)
    requires Deployed(nm, g, pool, offset, count, made, g', ok)
    ensures forall n :: n in PoolNames(g, pool) ==> n in g' && Index(nm, g', n) == Index(nm, g, n)
    ensures forall n :: n in PoolNames(g, pool) ==> Index(nm, g, n).Some? && Index(nm, g, n).value <= s.highest
  {
    hide Deployed, Matches;
    DeployedNames(nm, g, pool, offset, count, made, g', ok);
    forall n | n in PoolNames(g, pool)
      ensures Index(nm, g, n).Some? && Index(nm, g, n).value <= s.highest
    {
      assert n in Elements(s.names);
    }
  }

  /** The VMs deployed have the indexes that they were deployed with. */
  lemma NewIndexes(nm: Naming, g: Group, pool: PoolRef, offset: nat, count: int, made: set<nat>, g': Group, ok: bool)
    requires nm.ParsesWhatItPrints(pool, offset, count) && Deployed(nm, g, pool, offset, count, made, g', ok)
    ensures forall n :: n in NewNames(nm, pool, made) ==>
              && n in g' && Index(nm, g', n).Some? && Index(nm, g', n).value >= offset
              && n == nm.name(pool, Index(nm, g', n).value)
  {
    hide Matches;
    DeployedNames(nm, g, pool, offset, count, made, g', ok);
    forall i | i in made
      ensures offset <= i < count
    {
      assert i in Range(offset, count);
    }
  }

  lemma DeployedKeepsPool(nm: Naming, g: Group, pool: PoolRef, s: Scan, count: int, made: set<nat>, g': Group, ok: bool)
    requires nm.ParsesWhatItPrints(pool, s.highest + 1, count)
    requires PoolInv(nm, g, pool) && Elements(s.names) == PoolNames(g, pool) && Greatest(nm, g, s.names, s.highest)
    requires Deployed(nm, g, pool, s.highest + 1, count, made, g', ok)
    ensures PoolInv(nm, g', pool)
  {
    hide Deployed, Matches, Greatest, Naming.ParsesWhatItPrints, Index;
    OldIndexes(nm, g, pool, s, s.highest + 1, count, made, g', ok);
    NewIndexes(nm, g, pool, s.highest + 1, count, made, g', ok);
    DeployedNames(nm, g, pool, s.highest + 1, count, made, g', ok);
  }

  lemma {:induction false} NewNamesCount(nm: Naming, pool: PoolRef, lo: nat, hi: int, made: set<nat>)
    requires nm.ParsesWhatItPrints(pool, lo, hi) && made <= Range(lo, hi)
    ensures |NewNames(nm, pool, made)| == |made|
  {
    hide Naming.ParsesWhatItPrints, Range;
    if made != {} {
      var i :| i in made;
      NewNamesCount(nm, pool, lo, hi, made - {i});
      assert made == made - {i} + {i};
      NewVMsAdd(nm, pool, made - {i}, i);
      NameIsNew(nm, pool, lo, hi, made - {i}, i);
    }
  }

  lemma NameIsNew(nm: Naming, pool: PoolRef, lo: nat, hi: int, made: set<nat>, i: nat)
    requires nm.ParsesWhatItPrints(pool, lo, hi) && made <= Range(lo, hi) && i in Range(lo, hi) && i !in made
    ensures nm.name(pool, i) !in NewNames(nm, pool, made)
  {
    hide Naming.ParsesWhatItPrints;
    NamesDiffer(nm, pool, lo, hi);
  }

  /** The scanned VMs carry distinct indexes, as those of the whole pool do. */
  lemma ScannedIndexesDiffer(nm: Naming, g: Group, pool: PoolRef, names: seq<Bytes>)
    requires PoolInv(nm, g, pool) && NoDuplicates(names) && Elements(names) <= PoolNames(g, pool)
    ensures forall i :: 0 <= i < |names| ==> names[i] in g
    ensures forall i, j :: 0 <= i < j < |names| ==> Index(nm, g, names[i]) != Index(nm, g, names[j])
  {
    assert forall i :: 0 <= i < |names| ==> names[i] in Elements(names);
  }

  /** The names deployed are none that were scanned, as their indexes lie above the highest one in use. */
  lemma AddedAbove(nm: Naming, g: Group, pool: PoolRef, s: Scan, count: int, made: set<nat>, g': Group)
    requires nm.ParsesWhatItPrints(pool, s.highest + 1, count) && Elements(s.names) <= PoolNames(g, pool)
    requires Greatest(nm, g, s.names, s.highest) && Deployed(nm, g, pool, s.highest + 1, count, made, g', true)
    ensures NewNames(nm, pool, made) !! Elements(s.names)
  {
    forall i | i in made
      ensures nm.name(pool, i) !in Elements(s.names)
    {
      assert i in Range(s.highest + 1, count);
      assert nm.name(pool, i) in NewNames(nm, pool, made);
      assert nm.name(pool, i) in PoolNames(g, pool) ==> Index(nm, g, nm.name(pool, i)) == Some(i);
    }
  }

  /**
   The deployment asked for brings up exactly desired - current names that were not scanned, all with indexes
   above the highest one scanned.
   */
  lemma DeploymentAddsMissing(nm: Naming, g: Group, pool: PoolRef, s: Scan, desired: nat, made: set<nat>, g': Group)
    requires PoolInv(nm, g, pool) && ReadsBack(nm, pool, s, desired) && desired > |s.names| >= 1
    requires NoDuplicates(s.names) && Elements(s.names) <= PoolNames(g, pool) && Greatest(nm, g, s.names, s.highest)
    requires Deployed(nm, g, pool, s.highest + 1, TemplateCount(desired, s.highest, |s.names|), made, g', true)
    ensures forall i :: i in made ==> i > s.highest
    ensures AddedNames(nm, pool, s, desired) == NewNames(nm, pool, made)
    ensures AddedNames(nm, pool, s, desired) !! Elements(s.names)
    ensures |AddedNames(nm, pool, s, desired)| == desired - |s.names|
    ensures PoolNames(g', pool) == PoolNames(g, pool) + AddedNames(nm, pool, s, desired)
  {
    hide PoolInv, Greatest, PoolNames, Index, NewNames, Deployed, Naming.ParsesWhatItPrints;
    var count := TemplateCount(desired, s.highest, |s.names|);
    MissingCount(nm, g, pool, s, desired);
    DeployedRange(nm, g, pool, s.highest + 1, count, made, g');
    AddedAbove(nm, g, pool, s, count, made, g');
    DeployedNames(nm, g, pool, s.highest + 1, count, made, g', true);
  }

  lemma DeployedRange(nm: Naming, g: Group, pool: PoolRef, offset: nat, count: int, made: set<nat>, g': Group)
    requires Deployed(nm, g, pool, offset, count, made, g', true)
    ensures made == Range(offset, count) && forall i :: i in made ==> i >= offset
  {
  }

  lemma MissingCount(nm: Naming, g: Group, pool: PoolRef, s: Scan, desired: nat)
    requires PoolInv(nm, g, pool) && ReadsBack(nm, pool, s, desired) && desired > |s.names| >= 1
    requires NoDuplicates(s.names) && Elements(s.names) <= PoolNames(g, pool) && Greatest(nm, g, s.names, s.highest)
    ensures |AddedNames(nm, pool, s, desired)| == desired - |s.names|
  {
    hide PoolInv, Greatest, Index, PoolNames, NewNames, Elements, Naming.ParsesWhatItPrints;
    var count := TemplateCount(desired, s.highest, |s.names|);
    ScannedIndexesDiffer(nm, g, pool, s.names);
    CountExactIff(nm, g, s.names, s.highest, desired);
    NewNamesCount(nm, pool, s.highest + 1, count, Range(s.highest + 1, count));
  }

  /** After a scan that found nothing of the pool, the deployment brings up one VM less than asked for. */
  lemma DeploymentAddsLess(nm: Naming, g: Group, pool: PoolRef, s: Scan, desired: nat, made: set<nat>, g': Group)
    requires ReadsBack(nm, pool, s, desired) && desired >= 1 && s.names == [] && s.highest == 0
    requires Deployed(nm, g, pool, 1, TemplateCount(desired, 0, 0), made, g', true)
    ensures |AddedNames(nm, pool, s, desired)| == desired - 1
    ensures PoolNames(g', pool) == PoolNames(g, pool) + AddedNames(nm, pool, s, desired)
  {
    NewNamesCount(nm, pool, 1, desired, made);
    DeployedNames(nm, g, pool, 1, desired, made, g', true);
  }

  /** Adding n to p makes as many as s and n together exactly if p has no more than these. */
  lemma UnionCount<T>(p: set<T>, s: set<T>, n: set<T>)
    requires s <= p && n !! s
    ensures |p + n| == |s| + |n| <==> p <= s + n
    ensures |p + n| == |n| + |p - n|
  {
    assert p + n == n + (p - n);
    assert |s + n| == |s| + |n|;
    SubsetCount(s + n, p + n);
    if p <= s + n {
      assert p + n == s + n;
    }
  }

  /** When a successful scaling after a scan that found some of the pool leads to the desired size. */
  lemma SizeAfter(nm: Naming, g: Group, pool: PoolRef, s: Scan, desired: nat, g': Group)
    requires PoolInv(nm, g, pool) && ReadsBack(nm, pool, s, desired) && desired >= 1
    requires NoDuplicates(s.names) && Elements(s.names) <= PoolNames(g, pool) && Greatest(nm, g, s.names, s.highest)
    requires ScaledFrom(nm, g, s, pool, desired, g', true)
    ensures var p, added := PoolNames(g, pool), AddedNames(nm, pool, s, desired);
            |PoolNames(g', pool)| == desired <==>
              if s.names == [] then |p - added| == 1 else p <= Elements(s.names) + added
  {
    hide PoolInv, ReadsBack, Greatest, Deployed, Deleted, Index, PoolNames, SomeDeployed;
    ElementsCount(s.names);
    UnionCount(PoolNames(g, pool), Elements(s.names), {});
    assert PoolNames(g, pool) + {} == PoolNames(g, pool) && Elements(s.names) + {} == Elements(s.names);
    match DirectionOf(|s.names|, desired)
    case Keep =>
    case Down =>
      var dead :| Deleted(g, s.names[desired..], dead, g', true);
      DeletedSize(g, pool, s.names, desired, dead, g');
    case Up =>
      SizeAfterUp(nm, g, pool, s, desired, g');
  }

  lemma SizeAfterUp(nm: Naming, g: Group, pool: PoolRef, s: Scan, desired: nat, g': Group)
    requires PoolInv(nm, g, pool) && ReadsBack(nm, pool, s, desired) && desired > |s.names|
    requires NoDuplicates(s.names) && Elements(s.names) <= PoolNames(g, pool) && Greatest(nm, g, s.names, s.highest)
    requires SomeDeployed(nm, g, pool, s.highest + 1, TemplateCount(desired, s.highest, |s.names|), g', true)
    ensures var p, added := PoolNames(g, pool), AddedNames(nm, pool, s, desired);
            |PoolNames(g', pool)| == desired <==>
              if s.names == [] then |p - added| == 1 else p <= Elements(s.names) + added
  {
    hide PoolInv, ReadsBack, Deployed, Index, AddedNames, PoolNames;
    ElementsCount(s.names);
    var made :| Deployed(nm, g, pool, s.highest + 1, TemplateCount(desired, s.highest, |s.names|), made, g', true);
    if s.names == [] {
      DeploymentAddsLess(nm, g, pool, s, desired, made, g');
    } else {
      DeploymentAddsMissing(nm, g, pool, s, desired, made, g');
    }
    UnionCount(PoolNames(g, pool), Elements(s.names), AddedNames(nm, pool, s, desired));
  }

  lemma MeetAll<T>(a: set<T>, b: set<T>)
    ensures a * b == a <==> a <= b
    ensures a * b == {} <==> a !! b
  {
    if a <= b {
      assert a * b == a;
    }
    if a * b == {} {
      assert forall x :: x in a ==> x !in b || x in a * b;
    } else {
      var x :| x in a * b;
      assert x in a && x in b;
    }
  }

  /**
   A successful scaling reaches the desired size if and only if every VM of the pool was on the page or bears one
   of the names deployed; or, when the page showed none of them, if all but one bear such names.
   */
  lemma StepReachesIff(nm: Naming, g: Group, pool: PoolRef, page: seq<Bytes>, desired: nat, g': Group)
    requires PoolInv(nm, g, pool) && desired >= 1 && GroupStep(nm, g, pool, page, desired, g', true)
    requires ReadsBack(nm, pool, ScanListing(nm, g, page, pool).value, desired)
    ensures var p, added := PoolNames(g, pool), AddedNames(nm, pool, ScanListing(nm, g, page, pool).value, desired);
            |PoolNames(g', pool)| == desired <==>
              if p !! Elements(page) then |p - added| == 1 else p <= Elements(page) + added
  {
    hide ScaledFrom, PoolInv, ReadsBack, ScanListing, Index, AddedNames;
    var s := ScanListing(nm, g, page, pool).value;
    var seen := PoolNames(g, pool) * Elements(page);
    ScanFindsPool(nm, g, page, pool);
    SizeAfter(nm, g, pool, s, desired, g');
    MeetAll(PoolNames(g, pool), Elements(page));
    assert s.names == [] <==> seen == {};
  }

  lemma ScaledKeepsPool(nm: Naming, g: Group, s: Scan, pool: PoolRef, desired: nat, g': Group, ok: bool)
    requires PoolInv(nm, g, pool) && ReadsBack(nm, pool, s, desired) && desired >= 1
    requires NoDuplicates(s.names) && Elements(s.names) == PoolNames(g, pool) && Greatest(nm, g, s.names, s.highest)
    requires ScaledFrom(nm, g, s, pool, desired, g', ok)
    ensures PoolInv(nm, g', pool)
  {
    hide PoolInv, Deployed, Deleted, Greatest, PoolNames, Index;
    match DirectionOf(|s.names|, desired)
    case Keep =>
    case Down =>
      var dead :| Deleted(g, s.names[desired..], dead, g', ok);
      DeletedKeepsPool(nm, g, pool, s, desired, dead, g', ok);
    case Up =>
      var count := TemplateCount(desired, s.highest, |s.names|);
      var made :| Deployed(nm, g, pool, s.highest + 1, count, made, g', ok);
      DeployedKeepsPool(nm, g, pool, s, count, made, g', ok);
  }

  /**
   One scaling with a full view keeps the pool non-empty with distinct indexes even when it fails, and
   reaches the desired size when it succeeds.
   */
  lemma StepKeepsPool(nm: Naming, g: Group, pool: PoolRef, page: seq<Bytes>, desired: nat, g': Group, ok: bool)
    requires PoolInv(nm, g, pool) && FullView(nm, g, pool, page, desired)
    requires desired >= 1 && GroupStep(nm, g, pool, page, desired, g', ok)
    ensures PoolInv(nm, g', pool)
    ensures ok ==> |PoolNames(g', pool)| == desired
  {
    if ok || g' != g {
      FullScan(nm, g, pool, page);
      ScaledKeepsPool(nm, g, ScanListing(nm, g, page, pool).value, pool, desired, g', ok);
      if ok {
        StepReachesIff(nm, g, pool, page, desired, g');
        MeetAll(PoolNames(g, pool), Elements(page));
      }
    }
  }

  lemma ScanOfOne(nm: Naming, g: Group, pool: PoolRef, a: Bytes)
    requires a in g && Matches(g[a], pool) && !g[a].windows && nm.linuxIndex(a) == Some(0)
    ensures ScanListing(nm, g, [a], pool) == Success(Scan(0, -1, [a]))
  {
    assert [a][..0] == [];
    assert ScanListing(nm, g, [a][..0], pool) == Success(Scan(0, -1, []));
    var none: seq<Bytes> := [];
    assert none + [a] == [a];
    assert Index(nm, g, a) == Some(0);
    assert ScanVM(nm, g, a, pool, Scan(0, -1, [])) == Success(Scan(0, -1, [a]));
  }

  /**
   With a second page the size is missed: of a pool of two VMs the first page shows one, and every successful call
   that asks for one VM leaves both.
   */
  lemma SecondPageMissed(nm: Naming, pool: PoolRef, a: Bytes, b: Bytes)
    requires !pool.windows && a != b && nm.linuxIndex(a) == Some(0) && nm.linuxIndex(b) == Some(1)
    ensures var g := map[a := NewVM(pool), b := NewVM(pool)];
            && PoolInv(nm, g, pool) && |PoolNames(g, pool)| == 2
            && forall g' :: GroupStep(nm, g, pool, [a], 1, g', true) <==> g' == g
  {
    var g: Group := map[a := NewVM(pool), b := NewVM(pool)];
    ContainsItself(pool.suffix);
    assert Matches(NewVM(pool), pool);
    assert PoolNames(g, pool) == {a, b};
    ScanOfOne(nm, g, pool, a);
  }

  // ---- the other pools ----

  /** The VMs of the pool are all still there, unchanged, and no others. */
  ghost predicate SamePool(g: Group, g': Group, pool: PoolRef) {
    PoolNames(g', pool) == PoolNames(g, pool) && forall n :: n in PoolNames(g, pool) ==> g'[n] == g[n]
  }

  lemma PoolsDisjoint(g: Group, pool: PoolRef, other: PoolRef)
    requires !EqualFold(pool.name, other.name)
    ensures PoolNames(g, pool) !! PoolNames(g, other)
  {
  }

  lemma DeletedKeepsOthers(g: Group, pool: PoolRef, other: PoolRef, tail: seq<Bytes>, g': Group, ok: bool)
    requires SomeDeleted(g, tail, g', ok) && Elements(tail) <= PoolNames(g, pool)
    requires !EqualFold(pool.name, other.name)
    ensures SamePool(g, g', other)
  {
    PoolsDisjoint(g, pool, other);
    var dead :| Deleted(g, tail, dead, g', ok);
    DeletedNames(g, other, tail, dead, g', ok);
    assert dead !! PoolNames(g, other);
  }

  lemma DeployedKeepsOthers(nm: Naming, g: Group, pool: PoolRef, other: PoolRef, offset: nat, count: int,
                            g': Group, ok: bool)
    requires SomeDeployed(nm, g, pool, offset, count, g', ok)
    requires !EqualFold(pool.name, other.name)
    ensures SamePool(g, g', other)
  {
    hide Index, Deployed, Matches;
    NewVMOwn(pool);
    var made :| Deployed(nm, g, pool, offset, count, made, g', ok);
    DeployedNames(nm, g, pool, offset, count, made, g', ok);
    OtherVMs(pool, other);
  }

  lemma OtherVMs(pool: PoolRef, other: PoolRef)
    requires !EqualFold(pool.name, other.name)
    ensures forall vm: VM :: Matches(vm, pool) ==> !Matches(vm, other)
  {
  }

  lemma ScaledKeepsOthers(nm: Naming, g: Group, s: Scan, pool: PoolRef, desired: nat, g': Group, ok: bool,
                          other: PoolRef)
    requires ScaledFrom(nm, g, s, pool, desired, g', ok) && !EqualFold(pool.name, other.name)
    requires NoDuplicates(s.names) && Elements(s.names) <= PoolNames(g, pool)
    ensures SamePool(g, g', other)
  {
    match DirectionOf(|s.names|, desired)
    case Keep =>
    case Down =>
      CutElements(s.names, desired);
      DeletedKeepsOthers(g, pool, other, s.names[desired..], g', ok);
    case Up =>
      DeployedKeepsOthers(nm, g, pool, other, s.highest + 1, TemplateCount(desired, s.highest, |s.names|), g', ok);
  }

  lemma StepKeepsOthers(nm: Naming, g: Group, pool: PoolRef, page: seq<Bytes>, desired: nat, g': Group, ok: bool,
                        other: PoolRef)
    requires GroupStep(nm, g, pool, page, desired, g', ok) && !EqualFold(pool.name, other.name)
    ensures SamePool(g, g', other)
  {
    if ok || g' != g {
      ScanFindsPool(nm, g, page, pool);
      ScaledKeepsOthers(nm, g, ScanListing(nm, g, page, pool).value, pool, desired, g', ok, other);
    }
  }

  // ---- the VMs of other clusters ----

  /** A VM is of the pool if its tags name the pool, in any case, and a part of the cluster's suffix. */
  lemma MatchesIff(vm: VM, pool: PoolRef)
    ensures Matches(vm, pool) <==>
              && vm.poolName.Some? && EqualFold(vm.poolName.value, pool.name)
              && vm.nameSuffix.Some? && exists u: Bytes, v: Bytes :: pool.suffix == u + vm.nameSuffix.value + v
  {
    if vm.nameSuffix.Some? {
      ContainsIff(pool.suffix, vm.nameSuffix.value);
    }
  }

  /** The VM's tag is no part of the suffix. */
  ghost predicate Foreign(vm: VM, suffix: Bytes) {
    vm.nameSuffix.Some? ==> forall u: Bytes, v: Bytes :: suffix != u + vm.nameSuffix.value + v
  }

  /** The VM's tag names none of the pools, in any case. */
  ghost predicate Unnamed(vm: VM, names: seq<Bytes>) {
    vm.poolName.Some? ==> forall i :: 0 <= i < |names| ==> !EqualFold(vm.poolName.value, names[i])
  }

  /** The VM belongs to another cluster, or to no pool of this one. */
  ghost predicate Outside(vm: VM, names: seq<Bytes>, suffix: Bytes) {
    Foreign(vm, suffix) || Unnamed(vm, names)
  }

  ghost predicate Spared(g: Group, g': Group, n: Bytes) {
    n in g && n in g' && g'[n] == g[n]
  }

  lemma DeletedSpares(g: Group, names: seq<Bytes>, desired: nat, g': Group, ok: bool, n: Bytes)
    requires desired <= |names| && NoDuplicates(names) && SomeDeleted(g, names[desired..], g', ok)
    requires n in g && n !in Elements(names)
    ensures Spared(g, g', n)
  {
    var dead :| Deleted(g, names[desired..], dead, g', ok);
    CutElements(names, desired);
  }

  lemma DeployedSpares(nm: Naming, g: Group, pool: PoolRef, offset: nat, count: int, g': Group, ok: bool, n: Bytes)
    requires SomeDeployed(nm, g, pool, offset, count, g', ok) && n in g && !Matches(g[n], pool)
    ensures Spared(g, g', n)
  {
    hide Deployed, Matches;
    var made :| Deployed(nm, g, pool, offset, count, made, g', ok);
    DeployedNames(nm, g, pool, offset, count, made, g', ok);
  }

  lemma ScaledSpares(nm: Naming, g: Group, s: Scan, pool: PoolRef, desired: nat, g': Group, ok: bool, n: Bytes)
    requires ScaledFrom(nm, g, s, pool, desired, g', ok) && Elements(s.names) <= PoolNames(g, pool)
    requires NoDuplicates(s.names) && n in g && !Matches(g[n], pool)
    ensures Spared(g, g', n)
  {
    hide Matches, SomeDeleted, SomeDeployed, NoDuplicates;
    match DirectionOf(|s.names|, desired)
    case Keep =>
    case Down =>
      DeletedSpares(g, s.names, desired, g', ok, n);
    case Up =>
      DeployedSpares(nm, g, pool, s.highest + 1, TemplateCount(desired, s.highest, |s.names|), g', ok, n);
  }

  /**
   No scaling, successful or failed, whatever page it saw, touches a VM whose tags name another pool, or are no
   part of the cluster's suffix.
   */
  lemma StepSparesForeign(nm: Naming, g: Group, pool: PoolRef, page: seq<Bytes>, desired: nat, g': Group, ok: bool,
                          n: Bytes)
    requires GroupStep(nm, g, pool, page, desired, g', ok) && n in g && Outside(g[n], [pool.name], pool.suffix)
    ensures Spared(g, g', n)
  {
    MatchesIff(g[n], pool);
    assert [pool.name][0] == pool.name;
    if ok || g' != g {
      ScanFindsPool(nm, g, page, pool);
      ScaledSpares(nm, g, ScanListing(nm, g, page, pool).value, pool, desired, g', ok, n);
    }
  }

  /** Of the VMs that were scanned, the first ones in listing order stay when a pool is scaled down. */
  lemma FirstListedStay(nm: Naming, g: Group, pool: PoolRef, page: seq<Bytes>, desired: nat, g': Group)
    requires GroupStep(nm, g, pool, page, desired, g', true) && desired < |Matching(g, page, pool)|
    ensures var l := Matching(g, page, pool);
            forall n :: n in g' <==> n in g && n !in Elements(l[desired..])
    ensures forall n :: n in g' ==> n in g && g'[n] == g[n]
  {
    ScanFinds(nm, g, page, pool);
  }

  // ---- whole runs ----

  /** A call of scaleCluster, with the page that the service listed for it and its outcome. */
  datatype Request = Request(pool: PoolRef, desired: nat, page: seq<Bytes>, ok: bool)

  /** The groups before and after each of a sequence of scaling calls on the pools of one cluster. */
  ghost predicate Run(nm: Naming, pools: set<PoolRef>, groups: seq<Group>, requests: seq<Request>) {
    && |groups| == |requests| + 1
    && forall i :: 0 <= i < |requests| ==>
         && requests[i].pool in pools && requests[i].desired >= 1
         && GroupStep(nm, groups[i], requests[i].pool, requests[i].page, requests[i].desired, groups[i + 1],
                      requests[i].ok)
  }

  /** Every call for the pool had a full view of it. */
  ghost predicate FullViews(nm: Naming, groups: seq<Group>, requests: seq<Request>, pool: PoolRef)
    requires |groups| == |requests| + 1
  {
    forall i :: 0 <= i < |requests| && requests[i].pool == pool ==>
      FullView(nm, groups[i], pool, requests[i].page, requests[i].desired)
  }

  ghost predicate NamesDistinct(pools: set<PoolRef>) {
    forall p, q :: p in pools && q in pools && p != q ==> !EqualFold(p.name, q.name)
  }

  /** The last call made for a pool, if any. */
  function LastRequest(requests: seq<Request>, pool: PoolRef): Option<Request> {
    if requests == [] then None
    else if requests[|requests| - 1].pool == pool then Some(requests[|requests| - 1])
    else LastRequest(requests[..|requests| - 1], pool)
  }

  /** What holds of a pool after a run. */
  ghost predicate Safe(nm: Naming, first: Group, last: Group, requests: seq<Request>, pool: PoolRef) {
    && PoolInv(nm, last, pool)
    && (LastRequest(requests, pool).None? ==> SamePool(first, last, pool))
    && (LastRequest(requests, pool).Some? && LastRequest(requests, pool).value.ok ==>
          |PoolNames(last, pool)| == LastRequest(requests, pool).value.desired)
  }

  lemma RunStep(nm: Naming, pools: set<PoolRef>, first: Group, g: Group, g': Group, requests: seq<Request>, r: Request,
                pool: PoolRef)
    requires NamesDistinct(pools) && pool in pools && r.pool in pools && r.desired >= 1
    requires Safe(nm, first, g, requests, pool) && GroupStep(nm, g, r.pool, r.page, r.desired, g', r.ok)
    requires r.pool == pool ==> FullView(nm, g, pool, r.page, r.desired)
    ensures Safe(nm, first, g', requests + [r], pool)
  {
    assert (requests + [r])[..|requests|] == requests;
    if r.pool == pool {
      StepKeepsPool(nm, g, pool, r.page, r.desired, g', r.ok);
    } else {
      StepKeepsOthers(nm, g, r.pool, r.page, r.desired, g', r.ok, pool);
    }
  }

  /**
   Over every run of scalings, failed ones included, every pool of which the calls for it had a full view
   stays non-empty with distinct indexes, has the size last asked for if that call succeeded, and is
   untouched if it was never scaled.
   */
  lemma {:induction false} RunSafety(nm: Naming, pools: set<PoolRef>, groups: seq<Group>, requests: seq<Request>,
                                     pool: PoolRef)
    requires NamesDistinct(pools) && pool in pools && Run(nm, pools, groups, requests)
    requires FullViews(nm, groups, requests, pool) && PoolInv(nm, groups[0], pool)
    ensures Safe(nm, groups[0], groups[|requests|], requests, pool)
    decreases |requests|
  {
    if requests != [] {
      var n := |requests| - 1;
      RunSafety(nm, pools, groups[..n + 1], requests[..n], pool);
      assert requests == requests[..n] + [requests[n]];
      RunStep(nm, pools, groups[0], groups[n], groups[n + 1], requests[..n], requests[n], pool);
    }
  }

  /** No run of scalings touches a VM that is outside of all the pools. */
  lemma {:induction false} RunSparesForeign(nm: Naming, pools: set<PoolRef>, groups: seq<Group>, requests: seq<Request>,
                                            n: Bytes, k: nat)
    requires Run(nm, pools, groups, requests) && k <= |requests|
    requires n in groups[0] && forall p :: p in pools ==> Outside(groups[0][n], [p.name], p.suffix)
    ensures Spared(groups[0], groups[k], n)
  {
    hide GroupStep, Outside;
    if k > 0 {
      RunSparesForeign(nm, pools, groups, requests, n, k - 1);
      var r := requests[k - 1];
      StepSparesForeign(nm, groups[k - 1], r.pool, r.page, r.desired, groups[k], r.ok, n);
    }
  }
}
