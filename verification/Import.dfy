/** The two parsing helpers of acsengine/import.go. */
module Import {
  import opened Results
  import opened Text
  import opened ResourceIDs
  import opened ResourceIDFormat

  const DEPLOYMENTS: Bytes := "deployments"
  const DEPLOYMENTS_UPPER: Bytes := "Deployments"

  datatype ImportError = WrongLength(parts: nat) | BadID(cause: ParseError)

  /** "AZURE_RESOURCE_ID APIMODEL_DIRECTORY", with exactly one space. */
  function ParseImportID(dID: Bytes): Result<(Bytes, Bytes), ImportError> {
    var input := Split(dID, ' ');
    if |input| != 2 then Failure(WrongLength(|input|)) else Success((input[0], input[1]))
  }

  function DeploymentName(path: map<Bytes, Bytes>): Bytes {
    if DEPLOYMENTS in path && path[DEPLOYMENTS] != [] then path[DEPLOYMENTS]
    else if DEPLOYMENTS_UPPER in path then path[DEPLOYMENTS_UPPER]
    else []
  }

  /** The name stands after "deployments", or, if that names nothing, after "Deployments". */
  lemma DeploymentNameText(path: map<Bytes, Bytes>, name: Bytes, other: Bytes)
    requires name != [] && "deployments" !in path && "Deployments" !in path
    ensures DeploymentName(path) == []
    ensures DeploymentName(path["deployments" := name]) == name
    ensures DeploymentName(path["Deployments" := name]) == name
    ensures DeploymentName(path["deployments" := name]["Deployments" := other]) == name
    ensures DeploymentName(path["deployments" := []]["Deployments" := other]) == other
  {
    assert DEPLOYMENTS != DEPLOYMENTS_UPPER;
  }

  function DeploymentNameAndResourceGroup(azureID: Bytes): Result<(Bytes, Bytes), ImportError> {
    var id := Parse(azureID);
    if id.Failure? then Failure(BadID(id.error))
    else Success((DeploymentName(id.value.Path), id.value.ResourceGroup))
  }

  /** Splitting succeeds exactly on two space-free halves around one space, and returns those halves. */
  lemma ParseImportIDIff(dID: Bytes, azureID: Bytes, directory: Bytes)
    ensures ParseImportID(dID) == Success((azureID, directory)) <==>
            dID == azureID + [' '] + directory && ' ' !in azureID && ' ' !in directory
  {
    if dID == azureID + [' '] + directory && ' ' !in azureID && ' ' !in directory {
      SplitConcat(azureID, directory, ' ');
      SplitWithoutSeparator(azureID, ' ');
      SplitWithoutSeparator(directory, ' ');
    }
    if ParseImportID(dID) == Success((azureID, directory)) {
      JoinSplit(dID, ' ');
      PartsWithoutSeparator(dID, ' ');
      var parts := Split(dID, ' ');
      assert parts[1..] == [directory];
    }
  }

  /** Importing a printed deployment ID recovers the deployment's name and resource group. */
  lemma ImportPrinted(r: ResourceID, order: seq<Bytes>, directory: Bytes)
    requires Printable(r, order) && ' ' !in Print(r, order) && ' ' !in directory
    requires DEPLOYMENTS in r.Path
    ensures var halves := ParseImportID(Print(r, order) + [' '] + directory);
            && halves == Success((Print(r, order), directory))
            && DeploymentNameAndResourceGroup(halves.value.0) == Success((r.Path[DEPLOYMENTS], r.ResourceGroup))
  {
    ParseImportIDIff(Print(r, order) + [' '] + directory, Print(r, order), directory);
    ParsePrint(r, order);
    var i :| 0 <= i < |order| && order[i] == DEPLOYMENTS;
  }
}
