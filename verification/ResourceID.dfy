/**
 The Azure resource ID parser of internal/resource/resourceid.go, a declarative account of
 what it accepts and returns, and a printer that it inverts.
 */
module ResourceIDs {
  import opened Results
  import opened Text

  datatype ResourceID = ResourceID(SubscriptionID: Bytes, ResourceGroup: Bytes, Provider: Bytes,
                                   Path: map<Bytes, Bytes>)

  datatype ParseError = BadURI | OddSegments | EmptyKeyOrValue | NoSubscription | NoResourceGroup

  const SUBSCRIPTIONS: Bytes := "subscriptions"
  const RESOURCE_GROUPS: Bytes := "resourceGroups"
  const RESOURCEGROUPS: Bytes := "resourcegroups"
  const PROVIDERS: Bytes := "providers"

  // ---- the path component of a request URI ----

  /** Everything before the first '?'. */
  function CutQuery(s: Bytes): Bytes {
    if s == [] || s[0] == '?' then [] else [s[0]] + CutQuery(s[1..])
  }

  predicate IsHex(c: Byte) {
    '0' <= c <= '9' || 'a' <= c <= 'f' || 'A' <= c <= 'F'
  }

  function HexValue(c: Byte): (v: int)
    requires IsHex(c)
    ensures 0 <= v < 16
  {
    if c <= '9' then c as int - '0' as int
    else if c <= 'F' then c as int - 'A' as int + 10
    else c as int - 'a' as int + 10
  }

  /** Percent decoding in path position. */
  function Unescape(s: Bytes): Option<Bytes> {
    if s == [] then Some([])
    else if s[0] == '%' then
      if |s| >= 3 && IsHex(s[1]) && IsHex(s[2]) then
        var rest := Unescape(s[3..]);
        if rest.None? then None else Some([(16 * HexValue(s[1]) + HexValue(s[2])) as char] + rest.value)
      else None
    else
      var rest := Unescape(s[1..]);
      if rest.None? then None else Some([s[0]] + rest.value)
  }

  /** url.ParseRequestURI(id).Path for an ID without a scheme; only a slash may start it. */
  function RequestPath(id: Bytes): (path: Option<Bytes>)
    ensures path.Some? ==> path.value != [] && path.value[0] == '/'
  {
    if id == [] || id[0] != '/' then None else Unescape(CutQuery(id))
  }

  // ---- the specification ----

  /** The segments of a path once one slash has been dropped at either end. */
  function Segments(path: Bytes): (comps: seq<Bytes>)
    ensures |comps| >= 1
  {
    var p := TrimSpace(path);
    var q := if ['/'] <= p then p[1..] else p;
    Split(if q != [] && q[|q| - 1] == '/' then q[..|q| - 1] else q, '/')
  }

  datatype Collected = Collected(subscription: Bytes, components: map<Bytes, Bytes>)

  /** The first non-empty "subscriptions" value is set aside; every other pair goes in the map, later ones winning. */
  function Collect(comps: seq<Bytes>, pairs: nat): Collected
    requires 2 * pairs <= |comps|
  {
    if pairs == 0 then Collected([], map[])
    else
      var before := Collect(comps, pairs - 1);
      var key, value := comps[2 * pairs - 2], comps[2 * pairs - 1];
      if key == SUBSCRIPTIONS && before.subscription == [] then before.(subscription := value)
      else before.(components := before.components[key := value])
  }

  predicate AllFilled(comps: seq<Bytes>, n: nat)
    requires n <= |comps|
  {
    forall i :: 0 <= i < n ==> comps[i] != []
  }

  function Extract(c: Collected): Result<ResourceID, ParseError> {
    var m := c.components;
    if c.subscription == [] then Failure(NoSubscription)
    else if RESOURCE_GROUPS !in m && RESOURCEGROUPS !in m then Failure(NoResourceGroup)
    else
      var groupKey: Bytes := if RESOURCE_GROUPS in m then RESOURCE_GROUPS else RESOURCEGROUPS;
      Success(ResourceID(c.subscription, m[groupKey],
                         if PROVIDERS in m then m[PROVIDERS] else [],
                         m - {groupKey, PROVIDERS}))
  }

  function ParseSegments(comps: seq<Bytes>): Result<ResourceID, ParseError> {
    if |comps| % 2 != 0 then Failure(OddSegments)
    else if !AllFilled(comps, |comps|) then Failure(EmptyKeyOrValue)
    else Extract(Collect(comps, |comps| / 2))
  }

  function Parse(id: Bytes): Result<ResourceID, ParseError> {
    var path := RequestPath(id);
    if path.None? then Failure(BadURI) else ParseSegments(Segments(path.value))
  }

  lemma RemoveTwice(m: map<Bytes, Bytes>, a: Bytes, b: Bytes)
    ensures m - {a} - {b} == m - {a, b}
    ensures b !in m ==> m - {a} == m - {a, b}
  {
  }

  // ---- the parser ----

  method ParseAzureResourceID(id: Bytes) returns (r: Result<ResourceID, ParseError>)
    ensures r == Parse(id)
  {
    var idURL := RequestPath(id);
    if idURL.None? { return Failure(BadURI); }
    var components := SplitPath(idURL.value);
    r := ParseComponents(components);
  }

  method SplitPath(requestPath: Bytes) returns (components: seq<Bytes>)
    ensures components == Segments(requestPath)
  {
    hide TrimSpace, Split;
    var path := TrimSpace(requestPath);
    if ['/'] <= path { path := path[1..]; }
    if path != [] && path[|path| - 1] == '/' { path := path[..|path| - 1]; }
    components := Split(path, '/');
  }

  method ParseComponents(components: seq<Bytes>) returns (r: Result<ResourceID, ParseError>)
    ensures r == ParseSegments(components)
  {
    if |components| % 2 != 0 { return Failure(OddSegments); }

    var subscriptionID: Bytes := [];
    var componentMap: map<Bytes, Bytes> := map[];
    var current := 0;
    while current < |components|
      invariant 0 <= current <= |components| && current % 2 == 0
      invariant AllFilled(components, current)
      invariant Collect(components, current / 2) == Collected(subscriptionID, componentMap)
    {
      var key, value := components[current], components[current + 1];
      if key == [] || value == [] { return Failure(EmptyKeyOrValue); }
      if key == SUBSCRIPTIONS && subscriptionID == [] {
        subscriptionID := value;
      } else {
        componentMap := componentMap[key := value];
      }
      current := current + 2;
    }

    r := ExtractFields(subscriptionID, componentMap);
  }

  /** Takes the fields out of the map, and the map without them for the path. */
  method ExtractFields(subscriptionID: Bytes, components: map<Bytes, Bytes>) returns (r: Result<ResourceID, ParseError>)
    ensures r == Extract(Collected(subscriptionID, components))
  {
    var componentMap := components;
    if subscriptionID == [] { return Failure(NoSubscription); }
    RemoveTwice(componentMap, RESOURCE_GROUPS, PROVIDERS);
    RemoveTwice(componentMap, RESOURCEGROUPS, PROVIDERS);
    var resourceGroup: Bytes, provider: Bytes := [], [];
    if RESOURCE_GROUPS in componentMap {
      resourceGroup := componentMap[RESOURCE_GROUPS];
      componentMap := componentMap - {RESOURCE_GROUPS};
    } else {
      if RESOURCEGROUPS !in componentMap { return Failure(NoResourceGroup); }
      resourceGroup := componentMap[RESOURCEGROUPS];
      componentMap := componentMap - {RESOURCEGROUPS};
    }
    if PROVIDERS in componentMap {
      provider := componentMap[PROVIDERS];
      componentMap := componentMap - {PROVIDERS};
    }
    r := Success(ResourceID(subscriptionID, resourceGroup, provider, componentMap));
  }

  // ---- what the collected map means ----

  function Key(comps: seq<Bytes>, j: nat): Bytes
    requires 2 * j < |comps|
  {
    comps[2 * j]
  }

  function Val(comps: seq<Bytes>, j: nat): Bytes
    requires 2 * j + 1 < |comps|
  {
    comps[2 * j + 1]
  }

  /** Pair j is the first one whose key is "subscriptions". */
  ghost predicate IsSubscription(comps: seq<Bytes>, pairs: nat, j: nat)
    requires 2 * pairs <= |comps|
  {
    j < pairs && Key(comps, j) == SUBSCRIPTIONS && forall i: nat :: i < j ==> Key(comps, i) != SUBSCRIPTIONS
  }

  /** Pair j is the last one with key k that is not the subscription pair. */
  ghost predicate Wins(comps: seq<Bytes>, pairs: nat, k: Bytes, j: nat)
    requires 2 * pairs <= |comps|
  {
    && j < pairs && Key(comps, j) == k && !IsSubscription(comps, pairs, j)
    && forall i: nat :: j < i < pairs ==> Key(comps, i) != k
  }

  ghost predicate FirstWins(comps: seq<Bytes>, pairs: nat, subscription: Bytes)
    requires 2 * pairs <= |comps|
  {
    && (subscription == [] ==> forall i: nat :: i < pairs ==> Key(comps, i) != SUBSCRIPTIONS)
    && (subscription != [] ==> exists j: nat :: IsSubscription(comps, pairs, j) && subscription == Val(comps, j))
  }

  ghost predicate LastWins(comps: seq<Bytes>, pairs: nat, m: map<Bytes, Bytes>)
    requires 2 * pairs <= |comps|
  {
    && (forall k :: k in m ==> exists j: nat :: Wins(comps, pairs, k, j) && m[k] == Val(comps, j))
    && (forall k, j: nat :: Wins(comps, pairs, k, j) ==> k in m)
  }

  /** First-wins for the subscription, last-wins for every other pair. */
  ghost predicate FirstAndLastWin(comps: seq<Bytes>, pairs: nat, c: Collected)
    requires 2 * pairs <= |comps|
  {
    FirstWins(comps, pairs, c.subscription) && LastWins(comps, pairs, c.components)
  }

  lemma {:induction false} CollectFirst(comps: seq<Bytes>, pairs: nat)
    requires 2 * pairs <= |comps| && AllFilled(comps, 2 * pairs)
    ensures FirstWins(comps, pairs, Collect(comps, pairs).subscription)
  {
    if pairs > 0 {
      var n := pairs - 1;
      CollectFirst(comps, n);
      var before := Collect(comps, n).subscription;
      if before != [] {
        var j: nat :| IsSubscription(comps, n, j) && before == Val(comps, j);
        assert IsSubscription(comps, pairs, j);
      } else if Key(comps, n) == SUBSCRIPTIONS {
        assert IsSubscription(comps, pairs, n) && Val(comps, n) != [];
      }
    }
  }

  /** A pair that is not the last one wins as before, unless the last one has its key and wins. */
  lemma WinsStep(comps: seq<Bytes>, n: nat, k: Bytes, j: nat)
    requires 2 * n + 2 <= |comps|
    ensures Wins(comps, n + 1, k, j) <==>
            if j < n then Wins(comps, n, k, j) && Key(comps, n) != k
            else j == n && Key(comps, n) == k && !IsSubscription(comps, n + 1, n)
  {
  }

  lemma {:induction false} CollectLast(comps: seq<Bytes>, pairs: nat)
    requires 2 * pairs <= |comps| && AllFilled(comps, 2 * pairs)
    ensures LastWins(comps, pairs, Collect(comps, pairs).components)
  {
    if pairs > 0 {
      var n := pairs - 1;
      CollectLast(comps, n);
      CollectFirst(comps, n);
      LastWinsStep(comps, n, Collect(comps, n));
    }
  }

  /** The last pair is the subscription's if its key says so and there was none before. */
  lemma TakesSubscription(comps: seq<Bytes>, n: nat, subscription: Bytes)
    requires 2 * n + 2 <= |comps| && FirstWins(comps, n, subscription)
    ensures IsSubscription(comps, n + 1, n) <==> Key(comps, n) == SUBSCRIPTIONS && subscription == []
  {
  }

  lemma LastWinsStep(comps: seq<Bytes>, n: nat, c: Collected)
    requires 2 * n + 2 <= |comps| && FirstAndLastWin(comps, n, c)
    ensures var taken := Key(comps, n) == SUBSCRIPTIONS && c.subscription == [];
            LastWins(comps, n + 1, if taken then c.components else c.components[Key(comps, n) := Val(comps, n)])
  {
    hide IsSubscription;
    var key := Key(comps, n);
    var taken := key == SUBSCRIPTIONS && c.subscription == [];
    var m := if taken then c.components else c.components[key := Val(comps, n)];
    TakesSubscription(comps, n, c.subscription);
    forall k, j: nat
      ensures Wins(comps, n + 1, k, j) <==>
              if j < n then Wins(comps, n, k, j) && key != k else j == n && key == k && !taken
    {
      WinsStep(comps, n, k, j);
    }
    if taken {
      forall j: nat
        ensures !Wins(comps, n, SUBSCRIPTIONS, j)
      {
        NoneBefore(comps, n, j);
      }
    }
    forall k | k in m
      ensures exists j: nat :: Wins(comps, n + 1, k, j) && m[k] == Val(comps, j)
    {
      if k == key && !taken {
        assert Wins(comps, n + 1, k, n);
      } else {
        var j: nat :| Wins(comps, n, k, j) && c.components[k] == Val(comps, j);
        assert Wins(comps, n + 1, k, j);
      }
    }
    var pairs := n + 1;
    forall k, j: nat | Wins(comps, pairs, k, j)
      ensures k in m
    {
      assert j < n ==> Wins(comps, n, k, j);
    }
  }

  lemma NoneBefore(comps: seq<Bytes>, n: nat, j: nat)
    requires 2 * n <= |comps| && FirstWins(comps, n, [])
    ensures !Wins(comps, n, SUBSCRIPTIONS, j)
  {
  }

  lemma CollectMeaning(comps: seq<Bytes>, pairs: nat)
    requires 2 * pairs <= |comps|
    requires AllFilled(comps, 2 * pairs)
    ensures FirstAndLastWin(comps, pairs, Collect(comps, pairs))
  {
    hide Collect, IsSubscription;
    CollectFirst(comps, pairs);
    CollectLast(comps, pairs);
  }

  ghost predicate HasKey(comps: seq<Bytes>, k: Bytes) {
    exists i: nat :: 2 * i + 1 < |comps| && Key(comps, i) == k
  }

  lemma {:induction false} CollectHasKey(comps: seq<Bytes>, k: Bytes)
    requires |comps| % 2 == 0 && AllFilled(comps, |comps|)
    requires k != SUBSCRIPTIONS
    ensures k in Collect(comps, |comps| / 2).components <==> HasKey(comps, k)
  {
    var pairs := |comps| / 2;
    CollectMeaning(comps, pairs);
    if HasKey(comps, k) {
      var i: nat :| 2 * i + 1 < |comps| && Key(comps, i) == k;
      var j := LastWith(comps, pairs, k, i);
      assert Wins(comps, pairs, k, j);
    }
    if k in Collect(comps, pairs).components {
      var j: nat :| Wins(comps, pairs, k, j) && Collect(comps, pairs).components[k] == Val(comps, j);
      assert 2 * j + 1 < |comps| && Key(comps, j) == k;
    }
  }

  lemma {:induction false} LastWith(comps: seq<Bytes>, pairs: nat, k: Bytes, i: nat) returns (j: nat)
    requires 2 * pairs <= |comps| && i < pairs && Key(comps, i) == k
    ensures i <= j < pairs && Key(comps, j) == k
    ensures forall l: nat :: j < l < pairs ==> Key(comps, l) != k
  {
    j := i;
    var n := i + 1;
    while n < pairs
      invariant i <= j < n <= pairs && Key(comps, j) == k
      invariant forall l: nat :: j < l < n ==> Key(comps, l) != k
    {
      if Key(comps, n) == k { j := n; }
      n := n + 1;
    }
  }

  /** The parser succeeds exactly on paired, filled segments that name a subscription and a resource group. */
  lemma ParseSucceedsIff(id: Bytes)
    ensures Parse(id).Success? <==>
            && RequestPath(id).Some?
            && var comps := Segments(RequestPath(id).value);
               && |comps| % 2 == 0
               && AllFilled(comps, |comps|)
               && HasKey(comps, SUBSCRIPTIONS)
               && (HasKey(comps, RESOURCE_GROUPS) || HasKey(comps, RESOURCEGROUPS))
  {
    if RequestPath(id).Some? {
      var comps := Segments(RequestPath(id).value);
      if |comps| % 2 == 0 && AllFilled(comps, |comps|) {
        var pairs := |comps| / 2;
        CollectMeaning(comps, pairs);
        CollectHasKey(comps, RESOURCE_GROUPS);
        CollectHasKey(comps, RESOURCEGROUPS);
        if Collect(comps, pairs).subscription != [] {
          var j: nat :| IsSubscription(comps, pairs, j) && Collect(comps, pairs).subscription == Val(comps, j);
          assert 2 * j + 1 < |comps| && Key(comps, j) == SUBSCRIPTIONS;
        }
      }
    }
  }

  /** r.field is the value of the last pair with key k that is not the subscription pair. */
  ghost predicate LastValue(comps: seq<Bytes>, k: Bytes, value: Bytes) {
    exists j: nat :: Wins(comps, |comps| / 2, k, j) && value == Val(comps, j)
  }

  lemma CollectedLastValue(comps: seq<Bytes>, k: Bytes)
    requires |comps| % 2 == 0 && AllFilled(comps, |comps|)
    ensures var m := Collect(comps, |comps| / 2).components;
            k in m ==> LastValue(comps, k, m[k])
    ensures k != SUBSCRIPTIONS ==> (k in Collect(comps, |comps| / 2).components <==> HasKey(comps, k))
    ensures (exists j: nat :: Wins(comps, |comps| / 2, k, j)) ==> k in Collect(comps, |comps| / 2).components
  {
    CollectMeaning(comps, |comps| / 2);
    if k != SUBSCRIPTIONS { CollectHasKey(comps, k); }
  }

  /** The key under which the parser finds the resource group. */
  ghost function GroupKey(comps: seq<Bytes>): Bytes {
    if HasKey(comps, RESOURCE_GROUPS) then RESOURCE_GROUPS else RESOURCEGROUPS
  }

  /** The first subscription, and the last value of the resource-group key and of "providers". */
  ghost predicate FieldsMean(comps: seq<Bytes>, r: ResourceID) {
    && (exists j: nat :: IsSubscription(comps, |comps| / 2, j) && r.SubscriptionID == Val(comps, j))
    && LastValue(comps, GroupKey(comps), r.ResourceGroup)
    && (if HasKey(comps, PROVIDERS) then LastValue(comps, PROVIDERS, r.Provider) else r.Provider == [])
  }

  /** The last value of every pair but the subscription, without the group key used and "providers". */
  ghost predicate PathMeans(comps: seq<Bytes>, path: map<Bytes, Bytes>) {
    && (forall k :: k in path ==> LastValue(comps, k, path[k]))
    && (forall k :: k in path <==>
          k != GroupKey(comps) && k != PROVIDERS && exists j: nat :: Wins(comps, |comps| / 2, k, j))
  }

  lemma ExtractedFields(c: Collected, groupKey: Bytes)
    requires Extract(c).Success?
    requires groupKey == if RESOURCE_GROUPS in c.components then RESOURCE_GROUPS else RESOURCEGROUPS
    ensures groupKey in c.components
    ensures var r := Extract(c).value;
            && r.SubscriptionID == c.subscription != []
            && r.ResourceGroup == c.components[groupKey]
            && r.Provider == (if PROVIDERS in c.components then c.components[PROVIDERS] else [])
            && r.Path == c.components - {groupKey, PROVIDERS}
  {
  }

  lemma SegmentFields(comps: seq<Bytes>)
    requires ParseSegments(comps).Success?
    ensures FieldsMean(comps, ParseSegments(comps).value)
    ensures ParseSegments(comps).value.Path == Collect(comps, |comps| / 2).components - {GroupKey(comps), PROVIDERS}
  {
    CollectMeaning(comps, |comps| / 2);
    CollectHasKey(comps, RESOURCE_GROUPS);
    ExtractedFields(Collect(comps, |comps| / 2), GroupKey(comps));
    CollectedLastValue(comps, GroupKey(comps));
    CollectedLastValue(comps, PROVIDERS);
  }

  lemma SegmentPath(comps: seq<Bytes>)
    requires ParseSegments(comps).Success?
    ensures PathMeans(comps, ParseSegments(comps).value.Path)
  {
    SegmentFields(comps);
    var path := ParseSegments(comps).value.Path;
    forall k
      ensures k in path <==> k != GroupKey(comps) && k != PROVIDERS && exists j: nat :: Wins(comps, |comps| / 2, k, j)
      ensures k in path ==> LastValue(comps, k, path[k])
    {
      CollectedLastValue(comps, k);
    }
  }

  /** What a successful parse returns. */
  lemma ParsedMeaning(id: Bytes)
    requires Parse(id).Success?
    ensures FieldsMean(Segments(RequestPath(id).value), Parse(id).value)
    ensures PathMeans(Segments(RequestPath(id).value), Parse(id).value.Path)
  {
    var comps := Segments(RequestPath(id).value);
    SegmentFields(comps);
    SegmentPath(comps);
  }
}
