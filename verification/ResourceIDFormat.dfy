/** Printing resource IDs, and appending a secret to the ID of a key vault. */
module ResourceIDFormat {
  import opened Results
  import opened Text
  import opened ResourceIDs

  const SECRETS: Bytes := "secrets"
  const SLASH_SECRETS_SLASH: Bytes := "/secrets/"

  // ---- text that means itself in a path ----

  predicate Plain(s: Bytes) {
    forall i :: 0 <= i < |s| ==> s[i] != '/' && s[i] != '?' && s[i] != '%'
  }

  /** Non-empty plain parts, as between the slashes of an ID. */
  predicate AllPlain(comps: seq<Bytes>) {
    forall i :: 0 <= i < |comps| ==> comps[i] != [] && Plain(comps[i])
  }

  predicate PlainMap(order: seq<Bytes>, m: map<Bytes, Bytes>) {
    forall i :: 0 <= i < |order| ==>
      order[i] in m && order[i] != [] && m[order[i]] != [] && Plain(order[i]) && Plain(m[order[i]])
  }

  lemma {:induction false} CutQueryPlain(s: Bytes)
    requires '?' !in s
    ensures CutQuery(s) == s
  {
    if s != [] {
      CutQueryPlain(s[1..]);
      assert s == [s[0]] + s[1..];
    }
  }

  lemma {:induction false} CutQueryConcat(a: Bytes, b: Bytes)
    requires '?' in a
    ensures CutQuery(a + b) == CutQuery(a)
  {
    if a[0] != '?' {
      assert '?' in a[1..];
      assert (a + b)[1..] == a[1..] + b;
      CutQueryConcat(a[1..], b);
    }
  }

  lemma {:induction false} UnescapePlain(s: Bytes)
    requires '%' !in s
    ensures Unescape(s) == Some(s)
  {
    if s != [] {
      UnescapePlain(s[1..]);
      assert s == [s[0]] + s[1..];
    }
  }

  /** How many bytes the first decoded byte takes. */
  function HeadLength(s: Bytes): nat
    requires s != []
  {
    if s[0] == '%' then 3 else 1
  }

  function HeadByte(s: Bytes): Byte
    requires s != []
  {
    if s[0] == '%' && |s| >= 3 && IsHex(s[1]) && IsHex(s[2]) then (16 * HexValue(s[1]) + HexValue(s[2])) as char
    else s[0]
  }

  lemma UnescapeHead(s: Bytes)
    requires s != [] && Unescape(s).Some?
    ensures |s| >= HeadLength(s) && Unescape(s[HeadLength(s)..]).Some?
    ensures Unescape(s).value == [HeadByte(s)] + Unescape(s[HeadLength(s)..]).value
  {
  }

  lemma UnescapeWithTail(a: Bytes, b: Bytes)
    requires a != [] && Unescape(a).Some?
    requires Unescape(a[HeadLength(a)..] + b).Some?
    ensures |a| >= HeadLength(a)
    ensures Unescape(a + b) == Some([HeadByte(a)] + Unescape(a[HeadLength(a)..] + b).value)
  {
    UnescapeHead(a);
    assert (a + b)[HeadLength(a)..] == a[HeadLength(a)..] + b;
  }

  lemma {:induction false} UnescapeConcat(a: Bytes, b: Bytes)
    requires '%' !in b && Unescape(a).Some?
    ensures Unescape(a + b) == Some(Unescape(a).value + b)
  {
    hide Unescape, HeadByte;
    if a == [] {
      UnescapePlain(a);
      UnescapePlain(b);
      assert a + b == b;
    } else {
      UnescapeHead(a);
      var rest := a[HeadLength(a)..];
      UnescapeConcat(rest, b);
      UnescapeWithTail(a, b);
      assert [HeadByte(a)] + (Unescape(rest).value + b) == ([HeadByte(a)] + Unescape(rest).value) + b;
    }
  }

  lemma TrimSpaceIdentity(s: Bytes)
    requires s != [] && !IsSpace(s[0]) && !IsSpace(s[|s| - 1])
    ensures TrimSpace(s) == s
  {
  }

  // ---- the printer ----

  /** The keys of a map in some order, each followed by its value. */
  function Flatten(order: seq<Bytes>, m: map<Bytes, Bytes>): seq<Bytes>
    requires forall i :: 0 <= i < |order| ==> order[i] in m
  {
    if order == [] then [] else Flatten(order[..|order| - 1], m) + [order[|order| - 1], m[order[|order| - 1]]]
  }

  function Leading(r: ResourceID): seq<Bytes> {
    [SUBSCRIPTIONS, r.SubscriptionID, RESOURCE_GROUPS, r.ResourceGroup]
    + if r.Provider == [] then [] else [PROVIDERS, r.Provider]
  }

  function PrintedSegments(r: ResourceID, order: seq<Bytes>): seq<Bytes>
    requires forall i :: 0 <= i < |order| ==> order[i] in r.Path
  {
    Leading(r) + Flatten(order, r.Path)
  }

  function Print(r: ResourceID, order: seq<Bytes>): Bytes
    requires forall i :: 0 <= i < |order| ==> order[i] in r.Path
  {
    ['/'] + Join(PrintedSegments(r, order), '/')
  }

  /** A record whose printed form can be read back; Path may well hold a second "subscriptions". */
  ghost predicate Printable(r: ResourceID, order: seq<Bytes>) {
    && PlainMap(order, r.Path)
    && (forall k :: k in r.Path ==> exists i :: 0 <= i < |order| && order[i] == k)
    && (forall i, j :: 0 <= i < j < |order| ==> order[i] != order[j])
    && RESOURCE_GROUPS !in r.Path && PROVIDERS !in r.Path
    && r.SubscriptionID != [] && r.ResourceGroup != []
    && Plain(r.SubscriptionID) && Plain(r.ResourceGroup) && Plain(r.Provider)
    && !EndsInSpace(PrintedSegments(r, order))
  }

  predicate EndsInSpace(comps: seq<Bytes>) {
    comps != [] && var last := comps[|comps| - 1]; last != [] && IsSpace(last[|last| - 1])
  }

  lemma {:induction false} FlattenFacts(order: seq<Bytes>, m: map<Bytes, Bytes>)
    requires PlainMap(order, m)
    ensures |Flatten(order, m)| == 2 * |order|
    ensures AllPlain(Flatten(order, m))
  {
    if order != [] {
      var front := order[..|order| - 1];
      assert forall i :: 0 <= i < |front| ==> front[i] == order[i];
      FlattenFacts(front, m);
    }
  }

  lemma {:induction false} JoinPlain(comps: seq<Bytes>)
    requires |comps| >= 1
    requires AllPlain(comps)
    ensures forall i :: 0 <= i < |Join(comps, '/')| ==> Join(comps, '/')[i] != '?' && Join(comps, '/')[i] != '%'
    ensures var s := Join(comps, '/'); var last := comps[|comps| - 1];
            s != [] && s[|s| - 1] == last[|last| - 1]
  {
    if |comps| > 1 {
      var rest := comps[1..];
      assert forall i :: 0 <= i < |rest| ==> rest[i] == comps[i + 1];
      JoinPlain(rest);
    }
  }

  lemma PlainRequestPath(s: Bytes)
    requires s != [] && s[0] == '/'
    requires forall i :: 0 <= i < |s| ==> s[i] != '?' && s[i] != '%'
    ensures RequestPath(s) == Some(s)
  {
    CutQueryPlain(s);
    UnescapePlain(s);
  }

  lemma SegmentsOfBody(body: Bytes)
    requires body != [] && !IsSpace(body[|body| - 1]) && body[|body| - 1] != '/'
    ensures Segments(['/'] + body) == Split(body, '/')
  {
    var s := ['/'] + body;
    TrimSpaceIdentity(s);
    assert s[1..] == body;
  }

  lemma SegmentsOfJoin(comps: seq<Bytes>)
    requires |comps| >= 1 && !EndsInSpace(comps)
    requires AllPlain(comps)
    ensures RequestPath(['/'] + Join(comps, '/')) == Some(['/'] + Join(comps, '/'))
    ensures Segments(['/'] + Join(comps, '/')) == comps
  {
    hide RequestPath, Segments, Join, Split;
    var body, last := Join(comps, '/'), comps[|comps| - 1];
    JoinPlain(comps);
    PlainRequestPath(['/'] + body);
    assert Plain(last);
    SegmentsOfBody(body);
    PlainSegments(comps);
    SplitJoin(comps, '/');
  }

  lemma PlainSegments(comps: seq<Bytes>)
    requires AllPlain(comps)
    ensures forall i :: 0 <= i < |comps| ==> '/' !in comps[i]
  {
  }

  lemma {:induction false} CollectExtends(a: seq<Bytes>, b: seq<Bytes>, n: nat)
    requires n <= |a| && n <= |b| && a[..n] == b[..n]
    requires n % 2 == 0
    ensures Collect(a, n / 2) == Collect(b, n / 2)
  {
    if n > 0 {
      assert a[..n - 2] == a[..n][..n - 2] == b[..n][..n - 2] == b[..n - 2];
      CollectExtends(a, b, n - 2);
      assert a[..n][n - 2] == b[..n][n - 2] && a[..n][n - 1] == b[..n][n - 1];
    }
  }

  function Restrict(m: map<Bytes, Bytes>, keys: seq<Bytes>): map<Bytes, Bytes> {
    map k | k in m && k in keys :: m[k]
  }

  lemma CollectPair(comps: seq<Bytes>, k: Bytes, v: Bytes)
    requires |comps| % 2 == 0 && Collect(comps, |comps| / 2).subscription != []
    ensures var before := Collect(comps, |comps| / 2);
            Collect(comps + [k, v], |comps| / 2 + 1) == before.(components := before.components[k := v])
  {
    CollectExtends(comps, comps + [k, v], |comps|);
  }

  lemma RestrictNone(base: map<Bytes, Bytes>, m: map<Bytes, Bytes>)
    ensures base + Restrict(m, []) == base
  {
  }

  lemma RestrictStep(base: map<Bytes, Bytes>, m: map<Bytes, Bytes>, front: seq<Bytes>, k: Bytes)
    requires k in m
    ensures (base + Restrict(m, front))[k := m[k]] == base + Restrict(m, front + [k])
  {
  }

  lemma {:induction false} CollectFlatten(lead: seq<Bytes>, order: seq<Bytes>, m: map<Bytes, Bytes>)
    requires |lead| % 2 == 0
    requires PlainMap(order, m)
    requires Collect(lead, |lead| / 2).subscription != []
    ensures |Flatten(order, m)| == 2 * |order|
    ensures var before, after := Collect(lead, |lead| / 2), Collect(lead + Flatten(order, m), |lead| / 2 + |order|);
            after == before.(components := before.components + Restrict(m, order))
  {
    hide Collect, Restrict, Plain;
    FlattenFacts(order, m);
    var before := Collect(lead, |lead| / 2);
    if order == [] {
      assert lead + Flatten(order, m) == lead;
      RestrictNone(before.components, m);
    } else {
      var front, k := order[..|order| - 1], order[|order| - 1];
      CollectFlatten(lead, front, m);
      var shorter := lead + Flatten(front, m);
      assert lead + Flatten(order, m) == shorter + [k, m[k]];
      CollectPair(shorter, k, m[k]);
      RestrictStep(before.components, m, front, k);
      assert order == front + [k];
    }
  }

  lemma CollectLeading(r: ResourceID)
    requires r.SubscriptionID != []
    ensures var lead := Leading(r);
            && |lead| % 2 == 0
            && Collect(lead, |lead| / 2) == Collected(r.SubscriptionID, LeadingPairs(r))
  {
    var lead := Leading(r);
    assert Collect(lead, 1) == Collected(r.SubscriptionID, map[]) by {
      assert Collect(lead, 0) == Collected([], map[]);
    }
    assert Collect(lead, 2) == Collected(r.SubscriptionID, map[RESOURCE_GROUPS := r.ResourceGroup]);
  }

  lemma PlainConcat(a: seq<Bytes>, b: seq<Bytes>)
    requires AllPlain(a) && AllPlain(b)
    ensures AllPlain(a + b)
  {
  }

  lemma LeadingPlain(r: ResourceID)
    requires r.SubscriptionID != [] && r.ResourceGroup != []
    requires Plain(r.SubscriptionID) && Plain(r.ResourceGroup) && Plain(r.Provider)
    ensures AllPlain(Leading(r)) && |Leading(r)| % 2 == 0
  {
    assert AllPlain([SUBSCRIPTIONS, r.SubscriptionID]);
    assert AllPlain([RESOURCE_GROUPS, r.ResourceGroup]);
    PlainConcat([SUBSCRIPTIONS, r.SubscriptionID], [RESOURCE_GROUPS, r.ResourceGroup]);
    var first := [SUBSCRIPTIONS, r.SubscriptionID] + [RESOURCE_GROUPS, r.ResourceGroup];
    assert first == [SUBSCRIPTIONS, r.SubscriptionID, RESOURCE_GROUPS, r.ResourceGroup];
    if r.Provider != [] {
      assert AllPlain([PROVIDERS, r.Provider]);
      PlainConcat(first, [PROVIDERS, r.Provider]);
    }
  }

  lemma PrintedSegmentsPlain(r: ResourceID, order: seq<Bytes>)
    requires Printable(r, order)
    ensures AllPlain(PrintedSegments(r, order)) && |PrintedSegments(r, order)| % 2 == 0
  {
    FlattenFacts(order, r.Path);
    LeadingPlain(r);
    PlainConcat(Leading(r), Flatten(order, r.Path));
  }

  /** The pairs of a printed record without those of its Path. */
  function LeadingPairs(r: ResourceID): map<Bytes, Bytes> {
    map[RESOURCE_GROUPS := r.ResourceGroup] + if r.Provider == [] then map[] else map[PROVIDERS := r.Provider]
  }

  lemma RestrictAll(r: ResourceID, order: seq<Bytes>)
    requires Printable(r, order)
    ensures Restrict(r.Path, order) == r.Path
  {
  }

  lemma PrintedLength(r: ResourceID, order: seq<Bytes>)
    requires Printable(r, order) && |Leading(r)| % 2 == 0
    ensures |PrintedSegments(r, order)| % 2 == 0 && |PrintedSegments(r, order)| / 2 == |Leading(r)| / 2 + |order|
  {
    FlattenFacts(order, r.Path);
  }

  lemma CollectPrinted(r: ResourceID, order: seq<Bytes>)
    requires Printable(r, order)
    ensures var comps := PrintedSegments(r, order);
            |comps| % 2 == 0 && Collect(comps, |comps| / 2) == Collected(r.SubscriptionID, LeadingPairs(r) + r.Path)
  {
    hide Collect, Flatten, Restrict, Leading, LeadingPairs;
    CollectLeading(r);
    PrintedLength(r, order);
    CollectFlatten(Leading(r), order, r.Path);
    RestrictAll(r, order);
  }

  lemma ParsePrintedSegments(r: ResourceID, order: seq<Bytes>)
    requires Printable(r, order)
    ensures ParseSegments(PrintedSegments(r, order)) == Success(r)
  {
    PrintedSegmentsPlain(r, order);
    CollectPrinted(r, order);
    ExtractPrinted(r);
  }

  lemma ExtractPrinted(r: ResourceID)
    requires r.SubscriptionID != [] && RESOURCE_GROUPS !in r.Path && PROVIDERS !in r.Path
    ensures Extract(Collected(r.SubscriptionID, LeadingPairs(r) + r.Path)) == Success(r)
  {
    var m := LeadingPairs(r) + r.Path;
    assert RESOURCE_GROUPS != PROVIDERS;
    assert m - {RESOURCE_GROUPS, PROVIDERS} == r.Path;
  }

  /** Parsing the printed form of a record returns exactly that record, whatever the order of its pairs. */
  lemma ParsePrint(r: ResourceID, order: seq<Bytes>)
    requires Printable(r, order)
    ensures Parse(Print(r, order)) == Success(r)
  {
    PrintedSegmentsPlain(r, order);
    SegmentsOfJoin(PrintedSegments(r, order));
    ParsePrintedSegments(r, order);
  }

  // ---- appending "/secrets/name" to a vault ID ----

  function SecretReference(vaultID: Bytes, name: Bytes): Bytes {
    vaultID + SLASH_SECRETS_SLASH + name
  }

  predicate PlainName(name: Bytes) {
    name != [] && Plain(name) && !IsSpace(name[|name| - 1])
  }

  /** The ID has no query, and its path ends in neither white space nor a slash. */
  predicate Appendable(vaultID: Bytes) {
    && '?' !in vaultID
    && var path := RequestPath(vaultID);
       path.Some? && !IsSpace(path.value[|path.value| - 1]) && path.value[|path.value| - 1] != '/'
  }

  lemma ReferencePath(vaultID: Bytes, name: Bytes)
    requires '?' !in vaultID && RequestPath(vaultID).Some? && PlainName(name)
    ensures var p := RequestPath(vaultID).value;
            RequestPath(SecretReference(vaultID, name)) == Some(p + (SLASH_SECRETS_SLASH + name))
  {
    var tail := SLASH_SECRETS_SLASH + name;
    var ref := SecretReference(vaultID, name);
    assert ref == vaultID + tail;
    CutQueryPlain(vaultID);
    CutQueryPlain(ref);
    UnescapeConcat(vaultID, tail);
  }

  /** The segments of a reference are those of the raw vault path, nothing trimmed, then the secret pair. */
  lemma ReferenceSegments(p: Bytes, name: Bytes)
    requires p != [] && p[0] == '/' && PlainName(name)
    ensures Segments(p + (SLASH_SECRETS_SLASH + name)) == Split(p[1..], '/') + [SECRETS, name]
  {
    hide TrimSpace, Split;
    var path := p + (SLASH_SECRETS_SLASH + name);
    TrimSpaceIdentity(path);
    assert path[1..] == p[1..] + ['/'] + (SECRETS + ['/'] + name);
    SplitConcat(p[1..], SECRETS + ['/'] + name, '/');
    SplitConcat(SECRETS, name, '/');
    SplitWithoutSeparator(SECRETS, '/');
    SplitWithoutSeparator(name, '/');
    assert path[|path| - 1] == name[|name| - 1] != '/';
    assert Segments(path) == Split(path[1..], '/');
  }

  lemma SecretsIsOrdinary()
    ensures SECRETS != RESOURCE_GROUPS && SECRETS != RESOURCEGROUPS && SECRETS != PROVIDERS && SECRETS != SUBSCRIPTIONS
  {
  }

  lemma ExtractWithSecret(c: Collected, name: Bytes)
    requires Extract(c).Success?
    ensures var r := Extract(c).value;
            Extract(c.(components := c.components[SECRETS := name])) == Success(r.(Path := r.Path[SECRETS := name]))
  {
    SecretsIsOrdinary();
    var m := c.components;
    assert m[SECRETS := name] - {RESOURCE_GROUPS, PROVIDERS} == (m - {RESOURCE_GROUPS, PROVIDERS})[SECRETS := name];
    assert m[SECRETS := name] - {RESOURCEGROUPS, PROVIDERS} == (m - {RESOURCEGROUPS, PROVIDERS})[SECRETS := name];
  }

  lemma AppendPair(comps: seq<Bytes>, name: Bytes)
    requires ParseSegments(comps).Success? && name != []
    ensures var r := ParseSegments(comps).value;
            ParseSegments(comps + [SECRETS, name]) == Success(r.(Path := r.Path[SECRETS := name]))
  {
    CollectPair(comps, SECRETS, name);
    ExtractWithSecret(Collect(comps, |comps| / 2), name);
    assert AllFilled(comps + [SECRETS, name], |comps| + 2);
  }

  // ---- when the ID is not appendable ----

  lemma {:induction false} LastSlash(a: Bytes) returns (u: Bytes, v: Bytes)
    requires '/' in a
    ensures a == u + ['/'] + v && '/' !in v
  {
    var n := |a| - 1;
    if a[n] == '/' {
      u, v := a[..n], [];
    } else {
      assert a == a[..n] + [a[n]];
      u, v := LastSlash(a[..n]);
      v := v + [a[n]];
    }
  }

  lemma SplitTail(a: Bytes, w: Bytes)
    requires '/' !in w
    ensures var parts := Split(a, '/');
            Split(a + w, '/') == parts[..|parts| - 1] + [parts[|parts| - 1] + w]
  {
    if '/' in a {
      var u, v := LastSlash(a);
      assert a + w == u + ['/'] + (v + w);
      SplitConcat(u, v, '/');
      SplitConcat(u, v + w, '/');
      SplitWithoutSeparator(v, '/');
      SplitWithoutSeparator(v + w, '/');
    } else {
      SplitWithoutSeparator(a, '/');
      SplitWithoutSeparator(a + w, '/');
    }
  }

  lemma CollectLastPair(comps: seq<Bytes>)
    requires |comps| >= 2 && |comps| % 2 == 0
    ensures Collect(comps, |comps| / 2)
            == AddPair(Collect(comps, |comps| / 2 - 1), comps[|comps| - 2], comps[|comps| - 1])
  {
    hide Collect, AddPair;
    var pairs := |comps| / 2;
    assert 2 * pairs == |comps|;
    CollectOnePair(comps, pairs);
  }

  lemma CollectOnePair(comps: seq<Bytes>, pairs: nat)
    requires 0 < pairs && 2 * pairs <= |comps|
    ensures Collect(comps, pairs) == AddPair(Collect(comps, pairs - 1), comps[2 * pairs - 2], comps[2 * pairs - 1])
  {
  }

  lemma ChangedLast(comps: seq<Bytes>, other: Bytes)
    requires |comps| >= 2 && |comps| % 2 == 0 && AllFilled(comps, |comps|) && other != []
    ensures var changed := comps[..|comps| - 1] + [other];
            && |changed| == |comps| && AllFilled(changed, |comps|)
            && Collect(changed, |comps| / 2) == AddPair(Collect(comps, |comps| / 2 - 1), comps[|comps| - 2], other)
  {
    var n := |comps|;
    var changed := comps[..n - 1] + [other];
    assert comps[..n - 2] == changed[..n - 2];
    CollectExtends(comps, changed, n - 2);
    CollectLastPair(changed);
  }

  lemma ParseIsExtract(comps: seq<Bytes>, c: Collected)
    requires |comps| % 2 == 0 && AllFilled(comps, |comps|) && Collect(comps, |comps| / 2) == c
    ensures ParseSegments(comps) == Extract(c)
  {
  }

  /** Changing the last value changes what is parsed, but not which keys the Path has. */
  lemma LastValueMatters(comps: seq<Bytes>, other: Bytes)
    requires ParseSegments(comps).Success? && other != [] && other != comps[|comps| - 1]
    ensures var changed := ParseSegments(comps[..|comps| - 1] + [other]);
            && changed.Success? && changed != ParseSegments(comps)
            && changed.value.Path.Keys == ParseSegments(comps).value.Path.Keys
  {
    var n := |comps|;
    var c, key, value := Collect(comps, n / 2 - 1), comps[n - 2], comps[n - 1];
    CollectLastPair(comps);
    ParseIsExtract(comps, AddPair(c, key, value));
    ChangedLast(comps, other);
    ParseIsExtract(comps[..n - 1] + [other], AddPair(c, key, other));
    AddedValueMatters(c, key, value, other);
  }

  function AddPair(c: Collected, key: Bytes, value: Bytes): Collected {
    if key == SUBSCRIPTIONS && c.subscription == [] then c.(subscription := value)
    else c.(components := c.components[key := value])
  }

  lemma AddedValueMatters(c: Collected, key: Bytes, v: Bytes, w: Bytes)
    requires v != [] && w != [] && v != w
    requires Extract(AddPair(c, key, v)).Success?
    ensures var x, y := Extract(AddPair(c, key, v)), Extract(AddPair(c, key, w));
            y.Success? && y != x && y.value.Path.Keys == x.value.Path.Keys
  {
    var a, b := AddPair(c, key, v), AddPair(c, key, w);
    assert a.components.Keys == b.components.Keys;
    var g := if RESOURCE_GROUPS in a.components then RESOURCE_GROUPS else RESOURCEGROUPS;
    ExtractedFields(a, g);
    ExtractedFields(b, g);
    var x, y := Extract(a).value, Extract(b).value;
    if key == SUBSCRIPTIONS && c.subscription == [] {
      assert x.SubscriptionID == v && y.SubscriptionID == w;
    } else if key == g {
      assert x.ResourceGroup == v && y.ResourceGroup == w;
    } else if key == PROVIDERS {
      assert x.Provider == v && y.Provider == w;
    } else {
      assert x.Path[key] == v && y.Path[key] == w;
    }
  }

  lemma TrimmedPath(p: Bytes) returns (t: Bytes, w: Bytes)
    requires p != [] && p[0] == '/'
    ensures p == t + w && t == TrimSpace(p) && t != [] && t[0] == '/' && !IsSpace(t[|t| - 1])
    ensures forall i :: 0 <= i < |w| ==> IsSpace(w[i])
  {
    TrimRightSplits(p);
    t := TrimRight(p);
    w := p[|t|..];
    assert t != [] by { assert !IsSpace(p[0]); }
  }

  /** With a trailing slash the raw path has one segment more than the trimmed one. */
  lemma TrailingSlash(p: Bytes, t: Bytes, w: Bytes)
    requires p == t + w && t == TrimSpace(p) && |t| > 1 && t[0] == '/' && t[|t| - 1] == '/' && '/' !in w
    ensures |Split(p[1..], '/')| == |Segments(p)| + 1
  {
    var u := t[1..|t| - 1];
    assert t[1..] == u + ['/'] + [];
    assert t[1..][..|t| - 2] == u;
    assert Segments(p) == Split(u, '/');
    SplitConcat(u, [], '/');
    assert p[1..] == t[1..] + w;
    SplitTail(t[1..], w);
  }

  /** With trailing white space the last segment of the raw path is longer than the trimmed one. */
  lemma TrailingSpace(p: Bytes, t: Bytes, w: Bytes)
    requires p == t + w && t == TrimSpace(p) && t != [] && t[0] == '/' && t[|t| - 1] != '/' && '/' !in w
    ensures var comps := Segments(p);
            Split(p[1..], '/') == comps[..|comps| - 1] + [comps[|comps| - 1] + w]
  {
    assert p[1..] == t[1..] + w;
    assert Segments(p) == Split(t[1..], '/');
    SplitTail(t[1..], w);
  }

  lemma LongerLastSegment(comps: seq<Bytes>, w: Bytes, name: Bytes)
    requires ParseSegments(comps).Success? && SECRETS !in ParseSegments(comps).value.Path
    requires w != [] && name != []
    ensures var r := ParseSegments(comps).value;
            ParseSegments(comps[..|comps| - 1] + [comps[|comps| - 1] + w] + [SECRETS, name])
            != Success(r.(Path := r.Path[SECRETS := name]))
  {
    var last := comps[|comps| - 1];
    assert |last + w| != |last|;
    LastValueMatters(comps, last + w);
    var raw := comps[..|comps| - 1] + [last + w];
    AppendPair(raw, name);
    var r, q := ParseSegments(comps).value, ParseSegments(raw).value;
    assert r.Path[SECRETS := name] - {SECRETS} == r.Path;
    assert q.Path[SECRETS := name] - {SECRETS} == q.Path;
  }

  lemma NotAppendableBySpace(p: Bytes, t: Bytes, w: Bytes, name: Bytes)
    requires p == t + w && t == TrimSpace(p) && t != [] && t[0] == '/' && t[|t| - 1] != '/' && '/' !in w && name != []
    requires w != []
    requires ParseSegments(Segments(p)).Success? && SECRETS !in ParseSegments(Segments(p)).value.Path
    ensures var r := ParseSegments(Segments(p)).value;
            ParseSegments(Split(p[1..], '/') + [SECRETS, name]) != Success(r.(Path := r.Path[SECRETS := name]))
  {
    TrailingSpace(p, t, w);
    LongerLastSegment(Segments(p), w, name);
  }

  /** A trailing slash makes the number of segments of the reference odd. */
  lemma NotAppendableBySlash(p: Bytes, t: Bytes, w: Bytes, name: Bytes)
    requires p == t + w && t == TrimSpace(p) && t != [] && t[0] == '/' && t[|t| - 1] == '/' && '/' !in w
    requires |Segments(p)| % 2 == 0
    ensures ParseSegments(Split(p[1..], '/') + [SECRETS, name]).Failure?
  {
    assert t == ['/'] ==> Segments(p) == [[]];
    TrailingSlash(p, t, w);
  }

  lemma NotAppendable(vaultID: Bytes, name: Bytes)
    requires Parse(vaultID).Success? && !Appendable(vaultID) && '?' !in vaultID && PlainName(name)
    requires SECRETS !in Parse(vaultID).value.Path
    ensures var r := Parse(vaultID).value;
            Parse(SecretReference(vaultID, name)) != Success(r.(Path := r.Path[SECRETS := name]))
  {
    var p := RequestPath(vaultID).value;
    ReferencePath(vaultID, name);
    ReferenceSegments(p, name);
    var t, w := TrimmedPath(p);
    if t[|t| - 1] == '/' {
      NotAppendableBySlash(p, t, w, name);
    } else {
      assert w == [] ==> p == t;
      NotAppendableBySpace(p, t, w, name);
    }
  }

  lemma AppendableReference(vaultID: Bytes, name: Bytes)
    requires Parse(vaultID).Success? && Appendable(vaultID) && PlainName(name)
    ensures var r := Parse(vaultID).value;
            Parse(SecretReference(vaultID, name)) == Success(r.(Path := r.Path[SECRETS := name]))
  {
    var p := RequestPath(vaultID).value;
    ReferencePath(vaultID, name);
    ReferenceSegments(p, name);
    TrimSpaceIdentity(p);
    assert Segments(p) == Split(p[1..], '/');
    AppendPair(Segments(p), name);
  }

  /**
   A secret reference parses as the vault ID with only Path["secrets"] added exactly when the ID is
   appendable: a query swallows the added text, and a trailing slash or white space, which the
   parser drops from the vault ID itself, ends up inside the reference.
   */
  lemma SecretReferenceIff(vaultID: Bytes, name: Bytes)
    requires Parse(vaultID).Success? && SECRETS !in Parse(vaultID).value.Path && PlainName(name)
    ensures var r := Parse(vaultID).value;
            Parse(SecretReference(vaultID, name)) == Success(r.(Path := r.Path[SECRETS := name])) <==>
              Appendable(vaultID)
  {
    if Appendable(vaultID) {
      AppendableReference(vaultID, name);
    } else if '?' in vaultID {
      assert SecretReference(vaultID, name) == vaultID + (SLASH_SECRETS_SLASH + name);
      CutQueryConcat(vaultID, SLASH_SECRETS_SLASH + name);
    } else {
      NotAppendable(vaultID, name);
    }
  }

  lemma SlashDropped(vaultID: Bytes)
    requires Appendable(vaultID)
    ensures RequestPath(vaultID + ['/']).Some?
    ensures Segments(RequestPath(vaultID + ['/']).value) == Segments(RequestPath(vaultID).value)
  {
    hide TrimSpace, Split, Unescape;
    var id, p := vaultID + ['/'], RequestPath(vaultID).value;
    CutQueryPlain(vaultID);
    CutQueryPlain(id);
    UnescapeConcat(vaultID, ['/']);
    TrimSpaceIdentity(p);
    TrimSpaceIdentity(p + ['/']);
    assert (p + ['/'])[1..] == p[1..] + ['/'];
  }

  /**
   An appendable vault ID with a slash added means the same vault, but the references made from it
   do not parse as they should.
   */
  lemma TrailingSlashFails(vaultID: Bytes, name: Bytes)
    requires Appendable(vaultID) && Parse(vaultID).Success? && SECRETS !in Parse(vaultID).value.Path && PlainName(name)
    ensures Parse(vaultID + ['/']) == Parse(vaultID)
    ensures var r := Parse(vaultID).value;
            Parse(SecretReference(vaultID + ['/'], name)) != Success(r.(Path := r.Path[SECRETS := name]))
  {
    hide Segments, Collect, Split;
    var id := vaultID + ['/'];
    SlashDropped(vaultID);
    SlashNotAppendable(vaultID);
    SecretReferenceIff(id, name);
  }

  lemma SlashNotAppendable(vaultID: Bytes)
    requires Appendable(vaultID)
    ensures !Appendable(vaultID + ['/'])
  {
    CutQueryPlain(vaultID);
    CutQueryPlain(vaultID + ['/']);
    UnescapeConcat(vaultID, ['/']);
  }
}
