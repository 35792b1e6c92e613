# A verified model of the acs-engine Terraform provider

The provider creates and updates Kubernetes clusters built with acs-engine.  Its own logic, as opposed to
calls into Azure, Terraform and acs-engine, sits in five places, and each is modelled here in the form
the source has.

- **Guarded Base64** (`Base64.dfy`, `Base64Text.dfy`).  "Encode unless already encoded" and "decode if decodable", over the
  standard alphabet of section 4 of RFC 4648, with the Go decoder's conventions: CR and LF are skipped,
  padding is required, and the unused bits of a padded group are ignored.
- **Azure resource IDs** (`ResourceID.dfy`, `ResourceIDFormat.dfy`, `ResourceIDText.dfy`, `Import.dfy`).  The parser with its
  stride-2 loop, a declarative account of it, a printer it inverts, and the references made by appending
  `/secrets/<name>` to the ID of a key vault.
- **Certificates and the key vault** (`Certificates.dfy`, `Handover.dfy`, `KeyVault.dfy`, `VaultText.dfy`,
  `Kubernetes.dfy`, `ClusterTemplates.dfy`, `ClusterCreate.dfy`).  Template generation makes the certificates that are missing;
  they are written to a shared vault, replaced in place by references, and pulled back for a while to make a
  kube config.
- **Scaling** (`AgentPools.dfy`, `Draining.dfy`, `Authentication.dfy`, `UUIDText.dfy`,
  `ClusterScale.dfy`).  The scan of one
  page of a VM listing, the count/offset arithmetic, the choice of the VMs to delete, their concurrent
  draining, the checks on credentials, and the save of the API model; then whole runs of scalings, failed ones
  included.
- **Updates** (`TerraformState.dfy`, `ClusterUpdate.dfy`, `UpdateProperties.dfy`, `UpdateRuns.dfy`,
  `EquippedUpdate.dfy`).  Version, any number of pools, and tags as a chain of read-modify-write steps on the
  API model in the Terraform state, with the partial marks; what is stored after every step, and when that is
  what was asked for; what becomes of the VMs, what Terraform keeps of a failed update, and what repeating it
  does.

`Text.dfy` and `Results.dfy` hold strings and error returns; `Cluster.dfy` the cluster objects and the value
they stand for; `Environment.dfy` the outside services.  A Go string is a byte sequence and is written as
a sequence of characters below 256.

## How to read the contracts

Every remote call may fail: the methods of `Environment.ArmClient` choose their outcome freely, so what is
proved of a method holds for every pattern of failures.  The constant `reliable` says that no call whose outcome
is left open fails; `Outcome.Decided(reliable, C)` stands for "success implies C, and with reliable services C
implies success".  The conditions (`CanScale`, `CanUpgrade`, `CanRead`, `CanStep`) are spelled out over the
stored model, the vaults and the VMs, so that giving up for no reason would not meet the contracts.  A panic of
the original (an index out of range, a nil pointer) is an ordinary failure with an error of its own.  Whole runs
are sequences of snapshots related by the predicate that the method's postcondition uses (`ScaleCall`, `Step`),
which is how the lemmas about runs speak about the methods.  Parameters that only serve a proof are `ghost`.

What a method shares with the theorems about it (an alphabet, a key, a tag, a form of UUID) is said once more
without those definitions: as laws that speak of texts, fields and old and new values themselves, and on texts
written out.  These are in the modules whose names end in `Text`, and in lemmas whose names say `Listed`, `Means`,
`Spells` or `ByValues`.

These things are assumed, each as a named hypothesis or in the contract of an environment method:

- `AcsEngine.LoadsWhatItSaves`: loading a serialised API model gives that model back.
- `AgentPools.Paging`, `ArmClient.ListVirtualMachines`: a listing shows one page, some VMs of the group in any
  order; the scan asks for no other page.  `SeesPool` and `FullView` are the hypothesis that the page showed the
  whole pool; where it is not made, nothing is said of the size, and `StepReachesIff` says what it is needed for.
- `Naming.ParsesWhatItPrints`: the VM index can be read off a VM name that acs-engine made, for the indexes that
  a scaling adds.  acs-engine's pattern for Windows names has room for three digits, so for a Windows pool this
  cannot hold beyond index 999.
- `ArmClient.DeployTemplate`: a deployment brings up VMs of the pool with index in [offset, count), all of them
  if it succeeds.  A VM of the pool that has such a name already does not stand in its way; a VM of another pool
  or operating system with such a name stops it.
- `Settled`, a hypothesis of results that speak of the stored model as a whole: the certificates are all there,
  one peer certificate and key per master, and are references, as they are once a cluster was created
  (`ClusterCreate.TemplateDereferences`, `ClusterTemplates.ReferencesComplete`).  Without it the same results
  hold up to certificates that a step filled in or replaced by references (`UpdateProperties.Same`).
- Nothing is assumed of the VMs after an upgrade (`ArmClient.Upgrade`): acs-engine deletes and creates nodes, and
  may change the size of a pool whose stored count is wrong.  Sizes in the theorems on updates are those after
  the version's step, which without a new version are those before the update.
- `UpdateRuns.Kept`: of a failed update Terraform keeps the new values of marked root attributes only, and the
  prior values of all others.  "Stored" otherwise means the `api_model` attribute in the resource data.
- Template generation follows acs-engine's `setDefaultCerts` for Kubernetes, and touches nothing else of the
  model.  It may fail for any other reason.
- The cluster ID depends on the DNS prefix alone.
- What a reference in a template means is read with the provider's own resource ID parser
  (`Handover.Dereference`).  acs-engine uses a pattern (`vendor/github.com/Azure/acs-engine/pkg/acsengine/engine.go:46`)
  that also wants `resourceGroups` and `Microsoft.KeyVault` written in this case; that a vault ID is written so
  is assumed.

## What was found

Where the code does not do what its callers may expect, the exact condition is proved, and an input that fails.

- The round trip through the guards returns its argument exactly when that is empty or not decodable
  (`Base64.RoundTripIff`): an input that merely looks encoded, such as `abcd`, is taken for encoded
  (`Base64.RoundTripFails`).
- A secret reference parses as it should exactly when the vault ID has no query and ends in neither a slash nor
  white space (`ResourceIDFormat.SecretReferenceIff`): the parser drops both from the vault ID itself, but the
  reference is made from the raw text (`ResourceIDFormat.TrailingSlashFails`).
- With more peer keys than peer certificates the surplus keys are never replaced by references
  (`Handover.ReferencesReplaceAllIff`); with fewer, the loop runs out of the key array
  (`Clusters.CertificateProfile.SetReferences`).  With one certificate and two keys the second key stays in the
  model (`Handover.SurplusKeyStays`).
- `setCountForTemplate` creates the right number of VMs exactly when the scan found a VM of the pool; otherwise
  it is one short (`AgentPools.CountExactIff`, `AgentPools.DeploymentAddsLess`).
- The scan reads the first page of a listing only.  A successful scaling reaches the desired size exactly when
  every VM of the pool was on that page or bears a name that is deployed; if the page showed none of the pool,
  when all but one bear such names (`AgentPools.StepReachesIff`).  With one of two VMs on the page, every
  successful call that asks for one VM leaves both (`AgentPools.SecondPageMissed`).
- When one of at least two drains fails, some interleaving sends on the closed channel and panics; otherwise
  none does (`Draining.MayPanicIff`).
- Saving after scaling up is right exactly when the model has one pool (`ClusterScale.ScaleUpSaveIff`); with
  more, the others are dropped from the stored model (`UpdateProperties.FirstScalingLoses`), and an update that
  also changes one of their counts cannot complete (`UpdateProperties.SecondScalingFails`).
- Scaling up any pool but the first never succeeds: the VMs are created, and the save then indexes a list of one
  profile with the old index (`ClusterScale.ScaleCluster`, `ClusterScale.CanScale`).
- A scaling that finds the pool at the desired size does not save, so a wrong stored count stays wrong
  (`ClusterScale.AgreementIff`, `ClusterScale.StaleCountStays`).
- For these two reasons an update, whether it completes or fails half-way, may leave something other than the
  changes it marks as made in the resource data.  `UpdateProperties.UpdateIff` gives the exact condition, and
  `UpdateProperties.UpdateCompletesIff` the exact condition for completing.
- No mark is ever set for the stored API model itself, and the marks of pool counts name no root attribute
  (`ClusterUpdate.Marks`).  So of a failed update the new version may be kept beside the old model
  (`UpdateRuns.KeptVersionIff`), and a count that was carried out is lost (`UpdateRuns.KeptCountIff`).
- Worse, it stays lost: as the first pool then has the new size already, no repetition of the update ever
  stores its count (`UpdateRuns.FailureLeavesStale`, `UpdateRuns.NeverStored`).
- After a completed update, stored counts and pools that agreed before agree again exactly if the first of several
  pools was not scaled up (`UpdateRuns.AgreementKeptIff`).

## Model

| member | source | states |
|---|---|---|
| Base64.EncodeShape | acsengine/provider.go:235 | the encoder's output has four bytes for every three started, all from the alphabet but for padding at the very end |
| Base64Text.EncodeSpells | acsengine/provider.go:235 | every four digits of the encoding, as places in the standard alphabet read to the base 64, are the three octets they stand for, read to the base 256 |
| Base64Text.PairSpells | acsengine/provider.go:235 | two octets left over take three digits whose last two bits are zero, and one byte of padding |
| Base64Text.SingleSpells | acsengine/provider.go:235 | one octet left over takes two digits whose last four bits are zero, and two bytes of padding |
| Base64Text.TestVectors | acsengine/provider.go:235 | the examples of section 10 of RFC 4648 |
| Base64.DecodeEncode | acsengine/provider.go:229-249 | standard decode of standard encode of any byte string succeeds and returns it, so the guard holds of every encoder output |
| Base64.EncodedIff | acsengine/provider.go:246-249 | the guard accepts exactly the strings that, without CR and LF, are whole groups over the alphabet with at most two bytes of padding at the end |
| Base64Text.NewlinesIgnored | acsengine/provider.go:242 | a CR or LF put anywhere into a text changes nothing of what it decodes to |
| Base64Text.OthersRefused | acsengine/provider.go:246-249 | any other byte that is neither padding nor in the written-out alphabet makes a text undecodable |
| Base64.EncodeDecodeIff | acsengine/provider.go:242 | re-encoding what was decoded gives the newline-free input back exactly when the unused bits of its last group are zero; the decoder accepts others too |
| Base64.GuardedDecodeEncode | acsengine/provider.go:229-244 | guarded decode after guarded encode is guarded decode |
| Base64.GuardedEncodeIdempotent | acsengine/provider.go:229-236 | guarded encode always yields something encoded and never encodes twice |
| Base64.RoundTripIff | acsengine/provider.go:229-249 | the guarded round trip returns its argument exactly when that is empty or does not decode |
| Base64.RoundTripFails | acsengine/provider.go:229-249 | four letters of the alphabet do not come back from the round trip |
| Base64.RoundTripForeignByte | acsengine/provider.go:229-249 | one byte outside alphabet, padding, CR and LF is enough for the round trip |
| ResourceIDs.ParseAzureResourceID | internal/resource/resourceid.go:20-101 | the loop computes the specified parse of every ID, with the specified error where there is one |
| ResourceIDs.ParseSucceedsIff | internal/resource/resourceid.go:41-98 | parsing succeeds exactly when segments pair up, none is empty, and a subscriptions key and a resource-group key exist |
| ResourceIDs.ParsedMeaning | internal/resource/resourceid.go:52-98 | the subscription is the first such pair; resource group, provider and Path hold the last value of their keys; Path holds every key but the ones extracted |
| ResourceIDFormat.ParsePrint | internal/resource/resourceid.go:24-101 | parsing the printed form of a valid record returns exactly that record, whatever the order of its pairs, even with a second subscriptions key |
| ResourceIDText.VaultIDParses | internal/resource/resourceid.go:24-101 | the ID of a key vault written out parses as its subscription, group, provider and vault |
| ResourceIDText.GroupIDParses | internal/resource/resourceid.go:79-92 | the ID of a resource group parses with its key written in either case |
| ResourceIDText.CutQueryAt | internal/resource/resourceid.go:25-30 | a question mark and what follows it are dropped from an ID |
| ResourceIDText.EscapeMeans | internal/resource/resourceid.go:25-30 | a percent escape stands for the byte that its two hexadecimal digits spell, in either case |
| ResourceIDFormat.SecretReferenceIff | acsengine/key_vault.go:224-226 | a reference parses as the vault ID with only Path["secrets"] added, equal to the secret name, exactly when the vault ID has no query and no trailing slash or white space |
| ResourceIDFormat.TrailingSlashFails | acsengine/key_vault.go:224-226 | a slash at the end of any good vault ID leaves its own parse as it was and spoils every reference made from it |
| Import.ParseImportIDIff | acsengine/import.go:49-59 | splitting an import ID yields the two halves exactly when they are free of spaces with one space between them |
| Import.ImportPrinted | acsengine/import.go:49-71 | importing a printed deployment ID recovers the deployment's name and resource group |
| Import.DeploymentNameText | acsengine/import.go:61-71 | the deployment is named after "deployments", or failing that after "Deployments" |
| Certificates.SecretNamesInjective | acsengine/key_vault.go:220-222 | prefix and certificate name can be read off a secret name, for all prefixes and all generated names including decimal peer indexes |
| Handover.WrittenLookup | acsengine/key_vault.go:34-79 | after all the writes every slot is found under its own name: none of the 12 + 2n writes overwrites another |
| VaultText.CertificatesHeld | acsengine/key_vault.go:34-57 | after the handover the eight certificates and keys besides etcd's are each in the vault under the cluster's prefix and their own name |
| VaultText.EtcdHeld | acsengine/key_vault.go:58-69 | and so are the four of etcd |
| VaultText.PeersHeld | acsengine/key_vault.go:70-79 | and every peer certificate and key, with its decimal index in the name |
| VaultText.ReferencesListed | acsengine/key_vault.go:197-204 | the text of every reference: vault ID, "/secrets/", prefix, name |
| VaultText.EtcdReferencesListed | acsengine/key_vault.go:205-208 | the same for etcd |
| VaultText.PeerReferencesListed | acsengine/key_vault.go:210-215 | the same for the peers |
| VaultText.DereferencesIn | acsengine/key_vault.go:224-226 | a reference made from the ID of vault v in group g designates the secret of that name in that vault |
| Handover.OtherClusterUntouched | acsengine/key_vault.go:34-79 | no secret of a cluster with another prefix changes |
| Handover.HandoverPreserves | acsengine/key_vault.go:24-82 | every reference left in the profile dereferences to the guarded Base64 encoding of the field it replaced |
| Handover.ReferencesReplaceAllIff | acsengine/key_vault.go:192-218 | every field becomes a reference exactly when the keys beyond the last peer certificate are references already |
| Handover.SurplusKeyStays | acsengine/key_vault.go:192-218 | of two peer keys with one peer certificate, the second is left as it is, whatever it holds |
| Handover.ReferencesIdempotent | acsengine/key_vault.go:192-218 | a profile of references is left unchanged |
| Clusters.CertificateProfile.SetReferences | acsengine/key_vault.go:192-218 | every field and array element is replaced by its reference in place, surplus keys are kept, and missing keys end in an index out of range |
| KeyVaults.GetKeyVaultURI | acsengine/key_vault.go:154-190 | a vault is found only under the resource group of the parsed ID and by the name after "vaults" |
| VaultText.VaultOfPrinted | acsengine/key_vault.go:157-165 | for every ID in printed form, the vault asked for is the one after "vaults", in the resource group of the ID, and there is none without that key |
| VaultText.ClientSecretNamed | acsengine/cluster_scale.go:20-24 | the secret of the service principal is read from the vault of the ID under the secret name of the model |
| KeyVaults.SetCertificateProfileSecretsKeyVault | acsengine/key_vault.go:24-82 | on success the vault holds every slot's encoding and nothing else changed; on failure it holds a proper prefix of the writes or none |
| KeyVaults.GetCertificateProfileSecretsKeyVault | acsengine/key_vault.go:85-112 | on success three fields hold the decoded secrets and every other part of the model is unchanged |
| Kubernetes.GetKubeConfig | acsengine/kubernetes.go:72-88 | the kube config is made from the fetched secrets, after which references are back in place and the rest of the model is unchanged |
| VaultText.FetchedListed | acsengine/key_vault.go:98-109 | the three secrets fetched, by name, and the fields that get them, decoded |
| Kubernetes.ThroughVaultRestores | acsengine/kubernetes.go:72-88 | a successful fetch leaves a reference in every field whatever it held, and changes nothing if all were references |
| Kubernetes.KubeConfigCertificatesSurvive | acsengine/kubernetes.go:72-88 | through the vault and back the kube config gets the very certificates that were handed over, when these are PEM |
| ClusterTemplates.CompleteIff | vendor/github.com/Azure/acs-engine/pkg/acsengine/defaults.go:1063-1088 | a profile is complete exactly when every field is filled and there is one peer certificate and key for every master |
| ClusterTemplates.GeneratedPairs | vendor/github.com/Azure/acs-engine/pkg/acsengine/defaults.go:992-1034 | a pair is kept if both its fields and those of the CA are filled, and replaced as a whole otherwise |
| ClusterTemplates.GeneratedEtcd | vendor/github.com/Azure/acs-engine/pkg/acsengine/defaults.go:1035-1048 | the certificates of etcd are kept all together if they, one pair per master and the CA are there, and replaced all together otherwise |
| ClusterTemplates.PartlyGeneratedPairs | vendor/github.com/Azure/acs-engine/pkg/acsengine/defaults.go:992-1049 | a generation that fails mixes no pairs, and leaves at most the CA changed or everything generated |
| ClusterTemplates.ReferencesComplete | acsengine/cluster_create.go:29-37 | references to a complete profile are a complete profile, so that the second generation has nothing to make |
| ClusterTemplates.FormatTemplates | acsengine/cluster_templates.go:75-105 | the missing groups of certificates are replaced, by what is complete for any number of masters, a complete profile is left alone, and the result says which; a failure leaves nothing new, a CA pair, or everything |
| ClusterCreate.GenerateACSEngineTemplate | acsengine/cluster_create.go:11-46 | missing certificates are generated; with write on, all are then in the vault and references in the profile; on failure the vault holds a prefix of them; with write off no vault changes; with reliable services it succeeds if there is a vault |
| ClusterCreate.TemplateDereferences | acsengine/cluster_create.go:20-37 | after that every reference means the guarded encoding of the certificate it replaced, for any number of masters, whatever was generated |
| AgentPools.ScanMeaning | internal/operations/scale_client.go:83-109 | a scan fails only on a missing tag or an unreadable matching name, and otherwise yields the matching sublist in listing order and its greatest index |
| AgentPools.MatchesIff | internal/operations/scale_client.go:83-90 | a VM is of the pool if its tags name the pool, in any case, and a substring of the cluster's suffix |
| Text.EqualFoldIff | internal/operations/scale_client.go:88 | names are equal if they differ in the case of letters only, with the letters written out |
| AgentPools.FirstListedStay | internal/operations/scale_client.go:83-109 | of the VMs scanned, scaling down leaves the first ones in listing order and removes the others |
| AgentPools.CountExactIff | acsengine/cluster_scale.go:150-156 | count and offset enclose exactly the missing indexes if and only if the scan found a VM of the pool, and the case of highest index 0 agrees with the formula |
| AgentPools.DeploymentAddsMissing | acsengine/cluster_scale.go:118-128 | after a scan that found a VM, the deployment asked for brings up exactly desired - current names, all with indexes above the highest one scanned |
| AgentPools.DeploymentAddsLess | acsengine/cluster_scale.go:150-156 | after a scan that found none it brings up one less |
| AgentPools.FreeUnlessForeign | acsengine/cluster_scale.go:118-128 | if only VMs of the pool bear its names, none of the names to add is an obstacle; with a full view none of them is in use, as what is added lies above the highest index |
| AgentPools.StepReachesIff | internal/operations/scale_client.go:77-83 | for every page listed, a successful scaling reaches the desired size exactly when every VM of the pool was on the page or bears a deployed name; or, if the page showed none of the pool, when all but one bear such names |
| AgentPools.SecondPageMissed | internal/operations/scale_client.go:77-83 | a pool of two VMs, one of them on the first page, stays as it is in every successful call that asks for one VM |
| AgentPools.StepKeepsPool | acsengine/cluster_scale.go:14-58 | any scaling that had a full view of its pool, even a failed one, keeps the pool non-empty with distinct indexes, and a successful one reaches the desired size |
| AgentPools.StepKeepsOthers | internal/operations/scale_client.go:88-90 | any scaling, whatever page it saw, leaves the VMs of pools with another name, up to case, untouched |
| AgentPools.StepSparesForeign | internal/operations/scale_client.go:88-90 | no scaling, even a failed one, touches a VM whose tags name another pool or are no substring of the cluster's suffix |
| AgentPools.RunSafety | acsengine/cluster_scale.go:14-58 | over every run of scalings of all pools, failures included, in which the scalings of a pool had a full view of it: distinct indexes, no empty pool, the size last asked for, and untouched pools that were never scaled |
| AgentPools.RunSparesForeign | internal/operations/scale_client.go:88-90 | nor does any run of scalings |
| Draining.SendsNeverBlock | internal/operations/scale_client.go:150-163 | in every reachable state a goroutine that has its outcome can send it |
| Draining.NilMeansDrained | internal/operations/scale_client.go:143-173 | nil is returned only after all drains succeeded and all sends are over |
| Draining.NoDeadlock | internal/operations/scale_client.go:165-172 | until it has returned the function is never stuck, provided the drain calls end |
| Draining.RunLength | internal/operations/scale_client.go:143-173 | no interleaving takes more than 3n + 3 steps |
| Draining.ResultIff | internal/operations/scale_client.go:165-172 | every completed run returns nil exactly when all drains succeeded |
| Draining.MayPanicIff | internal/operations/scale_client.go:151-168 | some interleaving sends on the closed channel exactly when at least two nodes are drained and a drain fails |
| ClusterScale.ScaleClient.SetScaleClient | internal/operations/scale_client.go:36-69 | the client ends up set for that profile; it can be exactly when the ID parses and names a deployment, subscription and client ID are proper UUIDs, secret and location are set, the index is in range and the count is at least one |
| UUIDText.DashedForm | internal/operations/auth.go:87-110 | groups of 8, 4, 4, 4 and 12 bytes with dashes between them pass as a UUID exactly if all are hexadecimal digits and not all zero |
| UUIDText.OnlyDashed | internal/operations/auth.go:87-110 | no other text of 36 bytes passes |
| UUIDText.PlainForm | internal/operations/auth.go:87-110 | 32 bytes pass exactly if all are hexadecimal digits and not all zero |
| UUIDText.BracedForm | internal/operations/auth.go:87-110 | a text in braces passes exactly if the text is dashed and passes |
| UUIDText.URNForm | internal/operations/auth.go:87-110 | a text after "urn:uuid:" passes exactly if the text is plain or dashed and passes |
| UUIDText.NoOtherForm | internal/operations/auth.go:87-110 | nothing else passes |
| UUIDText.AuthorizedPrinted | internal/operations/auth.go:41-56 | a client is authorised exactly if the subscription of the ID and the client ID of the model pass and there is a secret |
| ClusterScale.SettablePrinted | internal/operations/scale_client.go:43-66 | besides, a client can be set exactly if the ID names a deployment, the index is that of a pool, at least one VM is asked for and there is a location |
| ClusterScale.FQDNText | internal/operations/scale_client.go:53-54 | the master's address: DNS prefix, location and suffix with dots between them |
| ClusterScale.ScaleClient.ScaleVMAS | internal/operations/scale_client.go:72-110 | the loop computes the scan of the page that was listed, and reports a bad name or a missing tag only where the page has one |
| ClusterScale.ScaleClient.DrainNodes | internal/operations/scale_client.go:143-173 | under every interleaving it passes only after draining every node and drains no other |
| ClusterScale.VmsToDeleteList | acsengine/cluster_scale.go:164-170 | the tail of the list from the desired count on, last VM first |
| ClusterScale.TailConserved | acsengine/cluster_scale.go:164-170 | survivors and VMs to delete together are exactly the scanned VMs, and the last scanned is the first to go |
| ClusterScale.ScaleDownCluster | acsengine/cluster_scale.go:60-95 | only VMs of the tail are deleted, none before the whole tail was drained, all of them on success, and references are back in the model |
| ClusterScale.ScaleUpCluster | acsengine/cluster_scale.go:97-142 | VMs with index in [offset, count) are brought up, all of them on success, and the profile list is cut down to the pool; missing certificates are filled in |
| ClusterScale.SaveScaledApimodel | acsengine/cluster_scale.go:144-148 | the stored model gets exactly the indexed pool's count replaced, or stays as it was when the index is out of range or a step fails |
| ClusterScale.ScaleCluster | acsengine/cluster_scale.go:14-58 | every call relates stored model and VMs before and after by ScaleCall, whether it succeeds or not; with reliable services it succeeds exactly if CanScale holds: secret, credentials, ID and location in order, a scannable non-empty page, a kube config for scaling down, the first pool and names that no VM but the pool's own bear for scaling up |
| ClusterScale.AgreementIff | acsengine/cluster_scale.go:38-57 | after a successful call with a full view the stored count is the real one exactly when it was right before or the pool had another size |
| ClusterScale.StaleCountStays | acsengine/cluster_scale.go:38-41 | a stored count of two for a pool of one VM survives every successful call that asks for one |
| ClusterScale.AgreementKept | acsengine/cluster_scale.go:38-57 | agreement of stored count and pool size is kept by every successful call, the one that does not save included |
| TerraformState.ExpandClusterTags | acsengine/tags.go:77-86 | the loop converts every tag and adds none |
| TerraformState.TagsMeaning | acsengine/tags.go:28-37 | a string tag is stored as itself, an integer as its numeral, and anything else as nothing; no tag is lost |
| TerraformState.TagTextInjective | acsengine/tags.go:28-37 | conversion does not confuse two strings or two integers |
| TerraformState.ResourceData.LoadContainerService | acsengine/containerservice.go:378-405 | a new object that stands for the stored model |
| TerraformState.StoredText | acsengine/containerservice.go:388-397 | the attribute is decoded as standard Base64 before it is loaded |
| TerraformState.ResourceData.SaveTemplates | acsengine/cluster_templates.go:107-121 | on success exactly this cluster is what will be loaded next, with certificates filled in if some were missing; on failure the stored model is unchanged |
| ClusterUpdate.UpgradeClient.SetUpgradeClient | internal/operations/upgrade_client.go:29-49 | the version is written through the shared pointer, nothing else changes, and all pool names are collected in order |
| ClusterUpdate.UpgradeCluster | acsengine/cluster_upgrade.go:11-56 | the stored model gets the new version and references, or stays as it was, whatever becomes of the VMs; with reliable services it gets them exactly if CanUpgrade holds: secret, credentials, ID, location and kube config in order |
| ClusterUpdate.UpdateResourceGroupTags | acsengine/tags.go:121-139 | the stored model gets exactly its tags replaced, or stays as it was |
| ClusterUpdate.Read | acsengine/resource_acsengine_kubernetes_cluster.go:300-341 | the attributes show the stored model, which reading leaves alone; with reliable services reading succeeds exactly if CanRead holds: the ID parses, every profile is set correctly, and a kube config that parses can be made |
| ClusterUpdate.FlattenedCounts | acsengine/containerservice.go:120-143 | flattening succeeds exactly when every profile has a name, a size and a count of at least one, and the counts read back are those of the profiles |
| ClusterUpdate.FilledProfilesSet | acsengine/containerservice.go:23-118 | the profiles of any model with the attributes filled can be shown, for any number of masters, with Windows or without |
| ClusterUpdate.BlankNotSet | acsengine/containerservice.go:23-118 | and of none with one of them blank |
| ClusterUpdate.Update | acsengine/resource_acsengine_kubernetes_cluster.go:379-425 | the steps succeed in order up to the first failure, the marks are those of the steps that succeeded, and partial mode ends only after the last; with reliable services the failing step is one that could not be done |
| UpdateProperties.StoredExactly | acsengine/resource_acsengine_kubernetes_cluster.go:386-420 | the exact stored model after each of the steps of any update, for any number of pools, in terms of what each scan found, and up to certificates that were not settled before |
| UpdateProperties.MarkedIsStoredIff | acsengine/resource_acsengine_kubernetes_cluster.go:384-422 | when an update of a model with settled certificates returns, failed or completed, the model in the resource data is the old one with exactly the marked changes if and only if scaling up the first pool lost no other and every count dealt with was stored already or differs from what its scan found |
| UpdateProperties.UpdateIff | acsengine/resource_acsengine_kubernetes_cluster.go:384-422 | the same in terms of the pools' sizes after the version's step, which without a new version are those before the update, for distinct pool names that the scans saw whole: no step touches a pool before its own |
| UpdateProperties.CompletedUpdate | acsengine/resource_acsengine_kubernetes_cluster.go:386-420 | for any number of pools a completed update stores the new version and tags, and the pools with exactly the changed counts replaced if and only if the counts are kept |
| UpdateProperties.OnePoolUpdate | acsengine/resource_acsengine_kubernetes_cluster.go:386-420 | a completed update of a one-pool cluster stores exactly the new version, count and tags if and only if a changed count was stored already or was not the size of the pool after the version's step |
| UpdateProperties.UpdateConverges | acsengine/resource_acsengine_kubernetes_cluster.go:386-424 | what is read back after a completed update is the version and tags asked for, and the counts asked for if and only if the counts are kept |
| UpdateProperties.UpdateCompletesIff | acsengine/resource_acsengine_kubernetes_cluster.go:379-425 | with reliable services, an update with certificates, credentials, kube config, listings and VM names in order completes if and only if at most the first pool grows and, if that loses others, no other count changes |
| UpdateProperties.CompletedCanRead | acsengine/resource_acsengine_kubernetes_cluster.go:424 | what such an update has stored can be read back if profiles were set correctly before, so that the whole call succeeds |
| UpdateProperties.HealthyRun | acsengine/cluster_scale.go:14-58 | in every state of every run of successful scalings with a full view of a healthy cluster, stored count, pool size and the count last asked for agree, and nothing else in the stored model has changed |
| UpdateProperties.SecondScalingFails | acsengine/cluster_scale.go:97-98 | two pools of one VM after the version's step cannot both get a second one in one update |
| UpdateProperties.FirstScalingLoses | acsengine/cluster_scale.go:97-98 | a second VM for the first of two such pools alone does complete, and the second pool is gone from the stored model |
| UpdateRuns.UpdateSafety | acsengine/resource_acsengine_kubernetes_cluster.go:397-413 | after any update, failed or completed, for any number of pools: a pool scanned with a full view has distinct indexes and is not empty, has the size asked for if its step was carried out, and is untouched since the version's step if its count was not to change or its turn did not come |
| UpdateRuns.UpdateSparesForeign | internal/operations/scale_client.go:88-90 | after the version's step no update touches a VM whose tags name none of the model's pools or are no substring of the cluster's suffix |
| UpdateRuns.UpdatedByValues | acsengine/resource_acsengine_kubernetes_cluster.go:397-413 | in terms of the old and the new count themselves: after any update a pool for which they differ has the new count of VMs if its turn was carried out, and a pool for which they are equal keeps its VMs |
| UpdateRuns.ProfileByValues | acsengine/resource_acsengine_kubernetes_cluster.go:397-413 | and its profile, after any update, while it is listed |
| UpdateRuns.AttributesByValues | acsengine/resource_acsengine_kubernetes_cluster.go:386-420 | version and tags in terms of the old and the new values themselves |
| UpdateRuns.MarkedByValues | acsengine/resource_acsengine_kubernetes_cluster.go:394-420 | the counts marked are those of the pools before the failing step, changed or not; version and tags are marked only if they differ |
| UpdateRuns.UpdateAgreesIff | acsengine/resource_acsengine_kubernetes_cluster.go:386-420 | after a completed update the stored counts are those of the pools, and no pool is missing, if and only if the counts asked for were kept and the others were right before |
| UpdateRuns.AgreementKeptIff | acsengine/resource_acsengine_kubernetes_cluster.go:386-420 | stored counts and pools that agree when the scalings begin agree after a completed update if and only if the first of several pools was not scaled up |
| UpdateRuns.KeptByValues | vendor/github.com/hashicorp/terraform/helper/schema/resource_data.go:300-314 | of a failed update Terraform keeps the old model, counts and tags, and the new version once its step is done; of a completed one the new values |
| UpdateRuns.KeptVersionIff | vendor/github.com/hashicorp/terraform/helper/schema/resource_data.go:300-314 | the version that Terraform keeps is that of the model it keeps if and only if the update completed, changed no version, or failed at the version |
| UpdateRuns.KeptCountIff | vendor/github.com/hashicorp/terraform/helper/schema/resource_data.go:300-314 | of a failed update the old model is kept, whose count for a pool that was scaled is the pool's size if and only if it was the new count before |
| UpdateRuns.FailureLeavesStale | acsengine/resource_acsengine_kubernetes_cluster.go:397-413 | a failed update that had scaled the first pool leaves a stored count other than its size, unless the stored count was the new one |
| UpdateRuns.NeverStored | acsengine/cluster_scale.go:38-41 | over every run of updates without a new version that ask for the size the first pool has, completed and failed, with any number of pools, a stored count other than that stays what it was |
| EquippedUpdate.EquippedUpdateExists | acsengine/resource_acsengine_kubernetes_cluster.go:379-425 | the hypotheses of the theorems on completing updates can all be met, with a change of count; the update so found completes without storing it, and starts a run of NeverStored |

## Left out

- ResourceIDs.ParseAzureResourceID: rejects IDs with a scheme (`https://...`) where the Go library would go on, and trims ASCII white space only; leading-slash IDs are handled with query and percent escapes, as by Go 1.10, which accepts control characters.
- ClusterScale.ScaleClient.DrainNodes: describes the function up to its return; that a goroutine may still be sending then, on a channel that is closed, is the subject of `Draining.MayPanicIff` and not part of this outcome.  All goroutines start at once; one that has not been started yet cannot be told from one that has not finished draining.
- ClusterTemplates.FormatTemplates: the certificates made are arbitrary but complete.
- AgentPools.StepReachesIff: takes a deployment over a VM of another pool or operating system never to succeed, as `ArmClient.DeployTemplate` says; Azure could retag such a VM.
- ClusterScale.ScaleCluster: its success when scaling up rests on the same assumption about names that are taken.
- Case is ignored for ASCII only.
- Scale sets (`ScaleVMSS`): every pool is an availability set; the other branch reads one capacity and adds nothing to the arithmetic.
- The Windows index passed to the template (`setWindowsIndex`): the scan computes it, the deployment ignores it.
- Agent pool profiles are values in an array, not pointers: that the scale client's `AgentPool` and the list entry are one object is not captured; the code never uses both after changing one.
- Key vaults treat secret names without regard to case; the model keeps the distinction the provider's code makes.
- The upgrade itself, template text, kube config text and API model serialisation are acs-engine's; validation of loaded models and of version upgrades may fail freely.
- Setting up the ARM client beyond the checks on its arguments: registering providers may fail freely.
- Resource creation beyond template generation, deletion, import of the state file, data sources, provider registration, schemas and validators: calls into Azure and Terraform, or easy members.
- Log output, translations and files written to `_output`.
