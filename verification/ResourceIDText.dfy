/** The resource ID parser on IDs written out, and what its character codes mean. */
module ResourceIDText {
  import opened Results
  import opened Text
  import opened ResourceIDs
  import opened ResourceIDFormat
  import opened Import

  // ---- queries and percent escapes ----

  /** A question mark and what follows it are dropped. */
  lemma CutQueryAt(path: Bytes, query: Bytes)
    requires '?' !in path
    ensures CutQuery(path + ['?'] + query) == path
  {
    CutQueryConcat(path + ['?'], query);
    CutQueryEnd(path);
  }

  lemma {:induction false} CutQueryEnd(path: Bytes)
    requires '?' !in path
    ensures CutQuery(path + ['?']) == path
  {
    if path != [] {
      CutQueryEnd(path[1..]);
      assert (path + ['?'])[1..] == path[1..] + ['?'];
    }
  }

  const HEX_LOWER: string := "0123456789abcdef"
  const HEX_UPPER: string := "0123456789ABCDEF"

  /** c is the i-th hexadecimal digit, in either case. */
  ghost predicate HexAt(i: int, c: Byte) {
    0 <= i < 16 && |HEX_LOWER| == |HEX_UPPER| == 16 && (c == HEX_LOWER[i] || c == HEX_UPPER[i])
  }

  lemma HexValueAt(i: int, c: Byte)
    requires HexAt(i, c)
    ensures IsHex(c) && HexValue(c) == i
  {
  }

  lemma HexListed(c: Byte)
    ensures IsHex(c) <==> exists i :: HexAt(i, c)
  {
    if IsHex(c) {
      HexPlaces(HexValue(c));
      assert HexAt(HexValue(c), c);
    }
    if i :| HexAt(i, c) {
      HexValueAt(i, c);
    }
  }

  lemma HexPlaces(v: int)
    requires 0 <= v < 16
    ensures |HEX_LOWER| == |HEX_UPPER| == 16
    ensures v < 10 ==> HEX_LOWER[v] == ('0' as int + v) as char
    ensures v >= 10 ==>
              HEX_LOWER[v] == ('a' as int + (v - 10)) as char && HEX_UPPER[v] == ('A' as int + (v - 10)) as char
  {
  }

  lemma EscapeHead(c: Byte, d: Byte, rest: Bytes)
    requires IsHex(c) && IsHex(d) && Unescape(rest).Some?
    ensures Unescape(['%', c, d] + rest) == Some([(16 * HexValue(c) + HexValue(d)) as char] + Unescape(rest).value)
  {
    assert (['%', c, d] + rest)[3..] == rest;
  }

  /** An escape stands for the byte that its two digits spell. */
  lemma EscapeMeans(i: int, j: int, c: Byte, d: Byte, rest: Bytes)
    requires HexAt(i, c) && HexAt(j, d) && Unescape(rest).Some?
    ensures Unescape(['%', c, d] + rest) == Some([(16 * i + j) as char] + Unescape(rest).value)
  {
    hide Unescape, HexAt;
    HexValueAt(i, c);
    HexValueAt(j, d);
    EscapeHead(c, d, rest);
  }

  // ---- the keys ----

  /** A text that starts with a slash and has plain parts parses as these. */
  lemma ParseJoined(comps: seq<Bytes>)
    requires |comps| >= 1 && AllPlain(comps) && !EndsInSpace(comps)
    ensures Parse(['/'] + Join(comps, '/')) == ParseSegments(comps)
  {
    hide RequestPath, Segments, Join;
    SegmentsOfJoin(comps);
  }

  lemma JoinFour(a: Bytes, b: Bytes, c: Bytes, d: Bytes)
    ensures Join([a, b, c, d], '/') == a + ['/'] + b + ['/'] + c + ['/'] + d
  {
    hide Join;
    JoinStep(a, [b, c, d], '/');
    JoinStep(b, [c, d], '/');
    JoinStep(c, [d], '/');
    JoinOne(d);
    assert [a] + [b, c, d] == [a, b, c, d] && [b] + [c, d] == [b, c, d] && [c] + [d] == [c, d];
  }

  lemma JoinOne(d: Bytes)
    ensures Join([d], '/') == d
  {
  }

  lemma CollectFour(key: Bytes, v: Bytes, key': Bytes, v': Bytes)
    requires key == SUBSCRIPTIONS && v != []
    ensures Collect([key, v, key', v'], 2) == Collected(v, map[key' := v'])
  {
    var comps := [key, v, key', v'];
    assert Collect(comps, 0) == Collected([], map[]);
    assert Collect(comps, 1) == Collected(v, map[]);
  }

  lemma FourParse(group: Bytes)
    requires group == "resourceGroups" || group == "resourcegroups"
    ensures ParseSegments(["subscriptions", "s", group, "g"]) == Success(ResourceID("s", "g", [], map[]))
  {
    var comps: seq<Bytes> := ["subscriptions", "s", group, "g"];
    CollectFour(comps[0], comps[1], comps[2], comps[3]);
    assert PROVIDERS != group;
  }

  lemma FourPlain(group: Bytes)
    requires group == "resourceGroups" || group == "resourcegroups"
    ensures AllPlain(["subscriptions", "s", group, "g"]) && !EndsInSpace(["subscriptions", "s", group, "g"])
  {
  }

  /** The ID of a resource group, with the key in either case. */
  lemma GroupIDParses(group: Bytes)
    requires group == "resourceGroups" || group == "resourcegroups"
    ensures Parse("/subscriptions/s/" + group + "/g") == Success(ResourceID("s", "g", [], map[]))
  {
    hide Parse, ParseSegments, Join, AllPlain, EndsInSpace;
    FourPlain(group);
    JoinFour("subscriptions", "s", group, "g");
    ParseJoined(["subscriptions", "s", group, "g"]);
    FourParse(group);
    GroupText(group);
  }

  lemma GroupText(group: Bytes)
    ensures ['/'] + ("subscriptions" + ['/'] + "s" + ['/'] + group + ['/'] + "g") == "/subscriptions/s/" + group + "/g"
  {
    assert ['/'] + "subscriptions" + ['/'] + "s" + ['/'] == "/subscriptions/s/";
    assert ['/'] + "g" == "/g";
  }

  // ---- a key vault ----

  const VAULT_ID: Bytes := "/subscriptions/s" + "/resourceGroups/g" + "/providers/Microsoft.KeyVault" + "/vaults/v"
  const VAULT_RECORD := ResourceID("s", "g", "Microsoft.KeyVault", map["vaults" := "v"])

  lemma VaultRecordPrintable()
    ensures Printable(VAULT_RECORD, ["vaults"])
  {
    assert Flatten(["vaults"], VAULT_RECORD.Path) == ["vaults", "v"];
  }

  /** A pair in front. */
  lemma JoinPair(key: Bytes, value: Bytes, rest: seq<Bytes>)
    requires |rest| >= 1
    ensures ['/'] + Join([key, value] + rest, '/') == ['/'] + key + ['/'] + value + (['/'] + Join(rest, '/'))
  {
    hide Join;
    JoinStep(key, [value] + rest, '/');
    JoinStep(value, rest, '/');
    assert [key] + ([value] + rest) == [key, value] + rest;
    PairText(key, value, Join(rest, '/'));
  }

  lemma PairText(key: Bytes, value: Bytes, tail: Bytes)
    ensures ['/'] + (key + ['/'] + (value + ['/'] + tail)) == ['/'] + key + ['/'] + value + (['/'] + tail)
  {
  }

  lemma VaultSegments() returns (comps: seq<Bytes>)
    ensures comps == PrintedSegments(VAULT_RECORD, ["vaults"])
    ensures comps == ["subscriptions", "s"]
                     + (["resourceGroups", "g"] + (["providers", "Microsoft.KeyVault"] + ["vaults", "v"]))
  {
    comps := PrintedSegments(VAULT_RECORD, ["vaults"]);
    assert Flatten(["vaults"], VAULT_RECORD.Path) == ["vaults", "v"];
    assert Leading(VAULT_RECORD) == ["subscriptions", "s", "resourceGroups", "g", "providers", "Microsoft.KeyVault"];
  }

  lemma GroupPairs()
    ensures ['/'] + "subscriptions" + ['/'] + "s" == "/subscriptions/s"
    ensures ['/'] + "resourceGroups" + ['/'] + "g" == "/resourceGroups/g"
  {
  }

  lemma VaultPairs()
    ensures ['/'] + "providers" + ['/'] + "Microsoft.KeyVault" == "/providers/Microsoft.KeyVault"
    ensures ['/'] + ("vaults" + ['/'] + "v") == "/vaults/v"
  {
  }

  lemma VaultIDPrinted()
    ensures "vaults" in VAULT_RECORD.Path && Print(VAULT_RECORD, ["vaults"]) == VAULT_ID
  {
    hide Join, PrintedSegments;
    var comps := VaultSegments();
    GroupPairs();
    VaultPairs();
    JoinPair("subscriptions", "s", ["resourceGroups", "g"] + (["providers", "Microsoft.KeyVault"] + ["vaults", "v"]));
    JoinPair("resourceGroups", "g", ["providers", "Microsoft.KeyVault"] + ["vaults", "v"]);
    JoinPair("providers", "Microsoft.KeyVault", ["vaults", "v"]);
    JoinStep("vaults", ["v"], '/');
    JoinOne("v");
    assert ["vaults"] + ["v"] == ["vaults", "v"];
    ConcatFour("/subscriptions/s", "/resourceGroups/g", "/providers/Microsoft.KeyVault", "/vaults/v");
  }

  lemma ConcatFour(a: Bytes, b: Bytes, c: Bytes, d: Bytes)
    ensures a + (b + (c + d)) == a + b + c + d
  {
  }

  /** The ID of a vault, written out. */
  lemma VaultIDParses()
    ensures Parse(VAULT_ID) == Success(ResourceID("s", "g", "Microsoft.KeyVault", map["vaults" := "v"]))
  {
    hide Parse, Print, Printable;
    VaultIDPrinted();
    VaultRecordPrintable();
    ParsePrint(VAULT_RECORD, ["vaults"]);
  }

  // ---- what does not parse ----

  lemma OnePair(key: Bytes, value: Bytes)
    requires key != [] && value != [] && key != SUBSCRIPTIONS
    ensures ParseSegments([key, value]) == Failure(NoSubscription)
  {
    var comps := [key, value];
    assert Collect(comps, 0) == Collected([], map[]);
    assert Collect(comps, 1) == Collected([], map[key := value]);
  }

  lemma OnlySubscription(value: Bytes)
    requires value != []
    ensures ParseSegments(["subscriptions", value]) == Failure(NoResourceGroup)
  {
    var comps: seq<Bytes> := ["subscriptions", value];
    assert Collect(comps, 0) == Collected([], map[]);
    assert Collect(comps, 1) == Collected(value, map[]);
  }

  // Each error, with an input that meets it.

  lemma NoSlashFails()
    ensures Parse([]) == Parse("subscriptions/s") == Failure(BadURI)
  {
    hide Unescape, Segments, ParseSegments;
    var id: Bytes := "subscriptions/s";
    assert id[0] == 's';
  }

  lemma NoSubscriptionFails()
    ensures Parse("/resourceGroups/g") == Failure(NoSubscription)
  {
    hide Parse, ParseSegments;
    var key: Bytes, value: Bytes := "resourceGroups", "g";
    PairParse(key, value);
    OnePair(key, value);
    GroupPairs();
  }

  lemma NoGroupFails()
    ensures Parse("/subscriptions/s") == Failure(NoResourceGroup)
  {
    hide Parse, ParseSegments;
    var key: Bytes, value: Bytes := "subscriptions", "s";
    PairParse(key, value);
    OnlySubscription(value);
    GroupPairs();
  }

  /** A key or value that is empty fails, wherever it is. */
  lemma EmptySegmentFails(comps: seq<Bytes>, i: nat)
    requires |comps| % 2 == 0 && i < |comps| && comps[i] == []
    ensures ParseSegments(comps) == Failure(EmptyKeyOrValue)
  {
  }

  lemma OddFails()
    ensures Parse("/subscriptions") == Failure(OddSegments)
  {
    hide Parse, Join;
    ParseJoined(["subscriptions"]);
    JoinOne("subscriptions");
    assert ['/'] + "subscriptions" == "/subscriptions";
  }

  lemma PairParse(key: Bytes, value: Bytes)
    requires key != [] && value != [] && Plain(key) && Plain(value) && !IsSpace(value[|value| - 1])
    ensures Parse(['/'] + key + ['/'] + value) == ParseSegments([key, value])
  {
    hide Parse, Join, ParseSegments;
    ParseJoined([key, value]);
    JoinStep(key, [value], '/');
    JoinOne(value);
    assert [key] + [value] == [key, value];
    assert ['/'] + (key + ['/'] + value) == ['/'] + key + ['/'] + value;
  }
}
