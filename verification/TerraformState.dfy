/**
 The resource data of one cluster: the stored API model, the planned change, and the partial marks
 (acsengine/containerservice.go, acsengine/cluster_templates.go, acsengine/tags.go).
 */
module TerraformState {
  import opened Results
  import opened Text
  import opened Base64
  import opened Base64Text
  import opened Clusters
  import opened ClusterTemplates
  import opened Environment

  datatype TagValue = StringTag(s: Bytes) | IntTag(n: int) | OtherTag

  type Tags = map<Bytes, TagValue>

  /** The keys handed to SetPartial. */
  datatype Mark = VersionMark | CountMark(i: nat) | TagsMark

  /** What differs between the prior state and the configuration. */
  datatype Change = Change(oldVersion: Bytes, newVersion: Bytes, oldCounts: seq<int>, newCounts: seq<int>,
                           oldTags: Tags, newTags: Tags) {
    predicate Version() { oldVersion != newVersion }

    predicate Count(i: nat)
      requires i < |newCounts|
    {
      newCounts[i] != if i < |oldCounts| then oldCounts[i] else 0
    }

    predicate TagsChanged() { oldTags != newTags }
  }

  // ---- the stored model ----

  /** What loadContainerServiceFromApimodel finds in an "api_model" attribute. */
  function Stored(acs: AcsEngine, apiModel: Bytes): Option<ApiModel> {
    var bytes := Decode(apiModel);
    if bytes.None? then None else acs.Load(bytes.value)
  }

  /** What is stored is m, with certificates filled in if some were missing. */
  ghost predicate SavedAs(acs: AcsEngine, apiModel: Bytes, m: ApiModel) {
    match Stored(acs, apiModel)
    case None => false
    case Some(stored) => Filled(m, stored)
  }

  lemma StoredSaved(acs: AcsEngine, m: ApiModel)
    requires acs.LoadsWhatItSaves()
    ensures Stored(acs, Encode(acs.Serialize(m))) == Some(m)
  {
    DecodeEncode(acs.Serialize(m));
  }

  // ---- tags ----

  /** An integer as printed by %d. */
  function SignedDecimal(n: int): Bytes {
    if n < 0 then ['-'] + Decimal(-n) else Decimal(n)
  }

  /** tagValueToString; its error is dropped by expandClusterTags, which keeps the empty string. */
  function TagValueToString(v: TagValue): Result<Bytes, ()> {
    match v
    case StringTag(s) => Success(s)
    case IntTag(n) => Success(SignedDecimal(n))
    case OtherTag => Failure(())
  }

  function TagText(v: TagValue): Bytes {
    match TagValueToString(v)
    case Success(s) => s
    case Failure(_) => []
  }

  function ExpandedTags(tags: Tags): map<Bytes, Bytes> {
    map k | k in tags :: TagText(tags[k])
  }

  method ExpandClusterTags(tags: Tags) returns (output: map<Bytes, Bytes>)
    ensures output == ExpandedTags(tags)
  {
    output := map[];
    var rest := tags.Keys;
    while rest != {}
      invariant rest <= tags.Keys
      invariant output == map k | k in tags.Keys - rest :: TagText(tags[k])
      decreases rest
    {
      var k :| k in rest;
      output := output[k := TagText(tags[k])];
      rest := rest - {k};
    }
  }

  lemma SignedDecimalInjective(m: int, n: int)
    requires SignedDecimal(m) == SignedDecimal(n)
    ensures m == n
  {
    var p: nat, q: nat := if m < 0 then -m else m, if n < 0 then -n else n;
    assert Decimal(p)[0] in Decimal(p) && Decimal(q)[0] in Decimal(q);
    assert SignedDecimal(m)[0] == '-' <==> m < 0;
    assert SignedDecimal(n)[0] == '-' <==> n < 0;
    if m < 0 {
      assert SignedDecimal(m)[1..] == Decimal(p) && SignedDecimal(n)[1..] == Decimal(q);
    }
    DecimalInjective(p, q);
  }

  /** Expansion confuses two tag values only when they are of different kinds, or both of an unknown one. */
  lemma TagTextInjective(a: TagValue, b: TagValue)
    requires TagText(a) == TagText(b) && (a.StringTag? <==> b.StringTag?) && (a.IntTag? <==> b.IntTag?)
    ensures a == b
  {
    if a.IntTag? {
      SignedDecimalInjective(a.n, b.n);
    }
  }

  /** The text of an integer: a minus sign if it is negative, and its digits. */
  ghost predicate Spells(text: Bytes, n: int) {
    if n < 0 then text != [] && text[0] == '-' && text[1..] == Decimal(-n) else text == Decimal(n)
  }

  /** A string tag is stored as itself, an integer as its numeral, and anything else as nothing; no tag is lost. */
  lemma TagsMeaning(tags: Tags, k: Bytes)
    ensures k in ExpandedTags(tags) <==> k in tags
    ensures k in tags && tags[k].StringTag? ==> ExpandedTags(tags)[k] == tags[k].s
    ensures k in tags && tags[k].IntTag? ==> Spells(ExpandedTags(tags)[k], tags[k].n)
    ensures k in tags && tags[k].OtherTag? ==> ExpandedTags(tags)[k] == []
  {
  }

  lemma TagTexts()
    ensures TagText(StringTag("prod")) == "prod" && TagText(IntTag(7)) == "7" && TagText(IntTag(-10)) == "-10"
  {
    assert Decimal(7) == "7";
    DecimalLeads(10);
    assert SignedDecimal(-10) == ['-'] + Decimal(10);
  }

  /** The attribute is the standard Base64 encoding of what is loaded. */
  lemma StoredText(acs: AcsEngine)
    ensures Stored(acs, "Zm9vYmFy") == acs.Load("foobar")
  {
    hide DecodeGroups, StripNewlines, Encode;
    TestVectors();
    DecodeEncode("foobar");
  }

  // ---- the resource data ----

  class ResourceData {
    const id: Bytes
    const change: Change
    var apiModel: Bytes
    var partial: bool
    var marked: set<Mark>
    var version: Bytes
    var counts: seq<int>
    var tags: map<Bytes, Bytes>

    method LoadContainerService(c: ArmClient) returns (r: Result<ContainerService, Error>)
      ensures r.Success? ==> && fresh(r.value.Repr()) && r.value.Valid()
                             && Stored(c.acs, apiModel) == Some(r.value.Model())
      ensures c.reliable && Stored(c.acs, apiModel).Some? ==> r.Success?
    {
      var ok := c.Succeeds();
      if !ok { return Failure(ApiModelUnreadable); }
      var m := Stored(c.acs, apiModel);
      if m.None? { return Failure(ApiModelUnreadable); }
      var cluster := new ContainerService(m.value);
      r := Success(cluster);
    }

    method SetStateAPIModel(c: ArmClient, cluster: ContainerService) returns (r: Outcome<Error>)
      requires c.acs.LoadsWhatItSaves()
      modifies this`apiModel
      ensures if r.Pass? then Stored(c.acs, apiModel) == Some(cluster.Model()) else apiModel == old(apiModel)
      ensures r.Pass? ==> Decode(apiModel) == Some(c.acs.Serialize(cluster.Model()))
      ensures c.reliable ==> r.Pass?
    {
      var ok := c.Succeeds();
      if !ok { return Fail(ApiModelUnreadable); }
      StoredSaved(c.acs, cluster.Model());
      DecodeEncode(c.acs.Serialize(cluster.Model()));
      apiModel := Encode(c.acs.Serialize(cluster.Model()));
      r := Pass;
    }

    /**
     saveTemplates: the stored model changes only when everything before has succeeded.  The templates
     are generated once more for it, so that certificates are filled in if any are missing.
     */
    method SaveTemplates(c: ArmClient, cluster: ContainerService, ghost m: ApiModel) returns (r: Outcome<Error>)
      requires c.acs.LoadsWhatItSaves() && cluster.Valid() && m == cluster.Model()
      modifies this`apiModel, cluster`CertificateProfile
      ensures if r.Pass? then SavedAs(c.acs, apiModel, m) else apiModel == old(apiModel)
      ensures c.reliable ==> r.Pass?
    {
      var formatted, generated := FormatTemplates(c, cluster, m);
      if formatted.Failure? { return Fail(formatted.error); }
      GeneratedFilled(m, generated);
      var written := c.Succeeds();
      if !written { return Fail(TemplatesFailed); }
      r := SetStateAPIModel(c, cluster);
    }
  }
}
