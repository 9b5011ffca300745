# Boron docker executor, modelled in Dafny

Boron is the CyanPrint executor. It runs a template's processors and plugins in Docker
containers, merges their outputs with a coordinator container, and keeps the long-lived
resources of templates and sessions (images, containers, volumes, the `cyanprint` network) in
shape. This project models the `docker_executor` package of that service and proves properties
of the model:

- **Resource naming** (`DomainModel`): Docker names for containers, volumes and images, and UUID
  dashing. Includes round trips, the ids that do not survive a trip, and the index-out-of-range
  read on short container names.
- **Registry resolution** (`Registry`, `CyanReferences`): the `user/name[:version]` parser, the
  version URLs, and the descending scan for a version the template allows.
- **The build pipeline** (`Pipeline`): processors, then the merger call, then the plugins, each
  stage only if the previous one succeeded. `FileMerge` models `MergeFiles`, the directory overlay
  the merger performs, over a map-based filesystem held by a `FileSystem` class.
- **The Docker client** (`Docker`): a `DockerClient` class over a daemon value.
  - Listings are decoded from the daemon state.
  - Commands are appended to a log and applied when the daemon accepts them.
  - Whether the daemon accepts a command, and whether a listing query succeeds, are given by two
    fixed functions (`answer`, `queries`).
- **The readiness poll** (`Readiness`): up to 60 GETs of a container endpoint. The HTTP GET is a
  function `probe(endpoint, attempt)`.
- **The session executor** (`SessionExecutor`): `Warm`, `Clean`, the missing-image searches and
  `startMerger`.
- **The template executor** (`TemplateWarmer`): `WarmTemplate` and its presence tests, listings,
  pulls and step chains.

Concurrency is modelled by arrival order. Where the source runs goroutines and collects their
results from channels, the model runs the branches one after the other. In the pipeline, the
template listing, `Warm` and the start of a template's container and volume, the order in which
the branches report is a parameter: a permutation `order`, or a flag such as `pullsFirst` or
`containerFirst`. The proved properties hold for every such order. The bulk Docker calls
(`RemoveAllContainers`, `RemoveAllVolumes`, `PullImages`) are the exception: they report their
errors in input order (see "Left out").

## Model

| member | source | states |
|---|---|---|
| DomainModel.StripDash | docker_executor/domain_model.go:9-11 | the result has no `-`, its length drops by the number of dashes, a dash-free id is unchanged |
| DomainModel.InsertDash | docker_executor/domain_model.go:13-19 | a 32-character input becomes 36 characters with dashes exactly at 8, 13, 18, 23 and the input's characters in order elsewhere; any other length is returned unchanged |
| DomainModel.InsertDashCanonical | docker_executor/domain_model.go:13-19 | re-dashing a dash-free 32-character id gives a canonical 8-4-4-4-12 UUID |
| DomainModel.StripInsertInverse | docker_executor/domain_model.go:9-19 | `StripDash(InsertDash(s)) == s` for every dash-free `s` |
| DomainModel.InsertStripInverse | docker_executor/domain_model.go:9-19 | `InsertDash(StripDash(u)) == u` for every canonical UUID |
| DomainModel.StripDashAround | docker_executor/domain_model.go:9-11 | stripping `a + "-" + b` glues the stripped parts |
| DomainModel.IdSurvivesCases | docker_executor/domain_model.go:48-72 | canonical UUIDs and dash-free ids of length other than 32 survive a trip through a name; dash-free ids of length 32 come back dashed |
| DomainModel.ImageToString | docker_executor/domain_model.go:26-28 | the encoding has one more `:` than reference and tag together |
| DomainModel.ImageToStruct | docker_executor/domain_model.go:30-40 | accepts exactly the strings with one `:`, and rejects all others with the one invalid-image-format error |
| DomainModel.ImageRoundTrip | docker_executor/domain_model.go:26-40 | decoding an encoded image whose parts have no `:` gives it back |
| DomainModel.ImageStringRoundTrip | docker_executor/domain_model.go:26-40 | every accepted image string is the encoding of what it decodes to |
| DomainModel.ContainerToString | docker_executor/domain_model.go:48-56 | every container name starts with `cyan-` |
| DomainModel.ContainerNameToStruct | docker_executor/domain_model.go:58-72 | a name without `cyan-` is an invalid-name error; a `cyan-` name with fewer than 3 segments is the index-out-of-range failure; otherwise type and session are dash-free, and the session is empty unless there are exactly 4 segments |
| DomainModel.ContainerRoundTrip | docker_executor/domain_model.go:48-72 | for dash-free type and session, decoding a name gives the reference back with its id re-dashed |
| DomainModel.ContainerRoundTripCanonical | docker_executor/domain_model.go:48-72 | with a canonical id, `NameToStruct(ToString(c)) == Ok(c)` for empty and non-empty sessions |
| DomainModel.ContainerNameRoundTrip | docker_executor/domain_model.go:58-72 | a `cyan-` name with 3 segments, or 4 with a non-empty fourth, decodes and re-encodes to itself |
| DomainModel.VolumeToString | docker_executor/domain_model.go:79-85 | every volume name starts with `cyan-` |
| DomainModel.VolumeNameToStruct | docker_executor/domain_model.go:87-100 | fails exactly on names without `cyan-`; the session is dash-free, and empty unless there are exactly 3 segments |
| DomainModel.VolumeRoundTrip | docker_executor/domain_model.go:79-100 | for a dash-free session, decoding a name gives the reference back with its id re-dashed |
| DomainModel.VolumeRoundTripCanonical | docker_executor/domain_model.go:79-100 | with a canonical id, the volume round trip is exact |
| DomainModel.VolumeNameRoundTrip | docker_executor/domain_model.go:87-100 | a `cyan-` name with 2 segments, or 3 with a non-empty third, re-encodes to itself |
| CyanReferences.ParseCyanReferenceSound | docker_executor/merger.go:84-100 | a reference parses exactly when it has at most one `:` and its unversioned part splits into two on `/`; the error cases and the parsed parts |
| CyanReferences.FormatCyanReference | docker_executor/merger.go:84-100 | the formatted reference has one more `/` than its parts |
| CyanReferences.ParseFormat | docker_executor/merger.go:84-100 | `u/n` parses to `(u, n, none)` and `u/n:v` to `(u, n, some v)` for `/`- and `:`-free parts |
| CyanReferences.FormatParse | docker_executor/merger.go:84-100 | every accepted reference is the formatting of what it parses to |
| Registry.VersionUrlShape | docker_executor/registry.go:15-16 | the URL starts with the endpoint and `/api/v1/` and ends with `/versions/` and the version |
| Registry.VersionUrlInjective | docker_executor/registry.go:15-16 | distinct versions of one slug have distinct URLs |
| Registry.ScanMatched | docker_executor/registry.go:160-180 | a match is the highest allowed version: it was fetched, the template allows its id, and every version above it was fetched and rejected |
| Registry.ScanFailed | docker_executor/registry.go:160-166 | a failed scan names the first fetch that failed, and every version above it was rejected |
| Registry.ScanNoMatch | docker_executor/registry.go:160-185 | no match exactly when every version from the latest down to 1 was fetched and rejected, in particular for a latest version of 0 or less |
| Registry.ScanCallsDescend | docker_executor/registry.go:160-180 | the `k`-th fetch of the scan is version `latest - k`: the scan fetches strictly downward, one URL per version |
| Registry.ScanCallsCount | docker_executor/registry.go:160-180 | the scan fetches exactly the versions from the latest down to the reported one, or down to 1 with no match; nothing below is fetched |
| Registry.ScanStep | docker_executor/registry.go:160-180 | one step: a failed fetch stops, an allowed id matches, a rejected id continues one version lower |
| Registry.ScanVersions | docker_executor/registry.go:160-180 | the descending counter loop returns the scan's outcome and makes exactly the scan's fetches |
| Registry.FindAllowed | docker_executor/registry.go:167-180 | the inner loop finds an entry exactly when the template allows the id |
| Registry.ResolveSound | docker_executor/registry.go:147-203 | a malformed reference is the parse error; a pinned version is fetched and reported as is; an unversioned one chooses an allowed id and reports the latest version |
| Registry.ResolveCallsShape | docker_executor/registry.go:147-203 | a malformed reference fetches nothing; a pinned one fetches exactly its version; an unversioned one fetches the latest, then the scan |
| Registry.ResolveReference | docker_executor/registry.go:147-203 | the shared resolution code returns the resolution and fetches exactly its URLs |
| Registry.ResolveProbeFailure | docker_executor/registry.go:160-166 | in the corrected resolution, a fetch that fails during the scan is reported as that error |
| Registry.ResolveNoMatch | docker_executor/registry.go:183-185 | a scan that finds nothing is a no-matching-version error naming the reference |
| Registry.ResolveProcessorSound | docker_executor/registry.go:147-203 | parse errors pass through; reference, config and files are copied; an unversioned processor has an allowed id and the latest version number; a pinned one is exactly the fetched version |
| Registry.ConvertProcessor | docker_executor/registry.go:147-203 | `convertProcessor` with the failed-probe finding fixed: returns `ResolveProcessor`, and makes exactly the fetches of the resolution; the code as written is `ConvertProcessorAsWritten` |
| Registry.ProcessorNilError | docker_executor/registry.go:162-166 | as written, a failed fetch during the scan gives the zero processor with no error; the corrected resolution gives an error |
| Registry.ResolvePluginSound | docker_executor/registry.go:205-258 | the same promises for plugins, with the matched version's id |
| Registry.ConvertPlugin | docker_executor/registry.go:205-258 | `convertPlugin` with the failed-probe and latest-id findings fixed: returns `ResolvePlugin`, and makes exactly the fetches of the resolution; the code as written is `ConvertPluginAsWritten` |
| Registry.PluginNilError | docker_executor/registry.go:219-223 | as written, a failed fetch during the scan gives the zero plugin with no error; the corrected resolution gives an error |
| Registry.PluginLatestId | docker_executor/registry.go:228-232 | as written, when the latest plugin version is not allowed, the returned id is the latest version's, which the template does not allow and which differs from the matched one |
| Pipeline.UnversionedAlwaysPosted | docker_executor/merger.go:117-137 | with the corrected resolution, the template check never stops a processor named without a version: once resolved, it is posted |
| Pipeline.ExecProcessors | docker_executor/merger.go:102-177 | one write directory per processor in arrival order, `""` for a failed one; one error per failed processor; no error exactly when every processor succeeded |
| Pipeline.RunProcessors | docker_executor/merger.go:106-163 | the processor goroutines produce each processor's run |
| Pipeline.CollectDirs | docker_executor/merger.go:165-176 | the receiving loop yields the directories and the errors in arrival order |
| Pipeline.Dirs | docker_executor/merger.go:165-176 | one directory per arrival, `""` for a failed processor |
| Pipeline.RunProcessor | docker_executor/merger.go:107-162 | one processor goroutine: UUID, resolution, template check, POST |
| Pipeline.PostPluginsSound | docker_executor/merger.go:216-235 | the POSTs are those of a prefix of the plugins, in order; no error means every plugin was posted and passed; an error is the last POST's, and every earlier one passed |
| Pipeline.PostPluginsStops | docker_executor/merger.go:216-235 | once a POST has failed, later plugins are not posted |
| Pipeline.ExecPlugins | docker_executor/merger.go:179-236 | `execPlugins` makes exactly the POSTs and returns exactly the errors of the plugin stage |
| Pipeline.RunPlugins | docker_executor/merger.go:185-200 | the plugin goroutines produce each plugin's resolution |
| Pipeline.PostAll | docker_executor/merger.go:216-235 | the sequential POST loop stops at the first failure |
| Pipeline.CollectPlugins | docker_executor/merger.go:202-214 | the receiving loop yields the resolved plugins and the errors in arrival order |
| Pipeline.Converted | docker_executor/merger.go:202-214 | one plugin per arrival, the zero plugin for a failed one |
| Pipeline.PluginsResolveFails | docker_executor/merger.go:179-214 | when some plugin fails to resolve, nothing is posted and the resolution errors, at least one and at most one per plugin, are returned |
| Pipeline.PluginsPosted | docker_executor/merger.go:179-236 | when every plugin resolves, the resolved plugins are posted in arrival order until one fails and that single error is returned; no error exactly when every plugin was posted and passed |
| Pipeline.PluginsOutcomeCalls | docker_executor/merger.go:179-236 | the plugin stage makes only plugin POSTs, one per plugin when it returns no error |
| Pipeline.Merge | docker_executor/merger.go:296-330 | `Merge` returns the outcome of the stage sequence: processors, then the merger call, then the plugins |
| Pipeline.MergeAndPlug | docker_executor/merger.go:314-329 | the merger POST and then, only if it succeeded, the plugins: the merge directory on success, "" with the errors otherwise |
| Pipeline.MergeProcessorFailure | docker_executor/merger.go:300-304 | a failed processor returns `""` with at most one error per processor, calling neither the merger nor any plugin |
| Pipeline.MergePath | docker_executor/merger.go:296-330 | a directory is returned exactly when there is no error, and it is the fresh one under the work area |
| Pipeline.MergeCalls | docker_executor/merger.go:296-330 | the merger is called first and alone, then the plugins; a success has called every plugin |
| Pipeline.AfterMergeCalls | docker_executor/merger.go:314-329 | once the processors succeeded, the merger call comes first and alone, then only plugin calls, and every plugin is called when no error is returned |
| FileMerge.TargetsIff | docker_executor/merger.go:266-287 | the paths a walk writes are exactly `dst` joined with the paths below `src` |
| FileMerge.Placed | docker_executor/merger.go:22-53 | a copied file keeps its content and mode bits; a directory is created with the source's mode, and an existing one is kept |
| FileMerge.OverlaySome | docker_executor/merger.go:266-287 | a partial walk adds exactly the written targets |
| FileMerge.OverlayStep | docker_executor/merger.go:266-287 | writing one more target extends the partial walk |
| FileMerge.OverlaySomeFrame | docker_executor/merger.go:266-287 | paths outside the written targets keep their entries |
| FileMerge.ConflictBlocks | docker_executor/merger.go:280-290 | a walk that meets a file/directory conflict fails |
| FileMerge.OverlayFrame | docker_executor/merger.go:266-287 | what lies outside the merge directory is untouched by a walk |
| FileMerge.MergeAllFrame | docker_executor/merger.go:264-293 | what lies outside the merge directory is untouched by the whole merge |
| FileMerge.ApartSource | docker_executor/merger.go:266-287 | a source entry never lies below a merge directory apart from its source |
| FileMerge.LastSource | docker_executor/merger.go:264-293 | the last source directory holding a relative path, and no later one holds it |
| FileMerge.MergeLastWriteWins | docker_executor/merger.go:264-293 | last write wins: each merged path holds the file of the last source that has it; paths in no source keep their entries |
| FileMerge.FileSystem.CopyTree | docker_executor/merger.go:266-287 | one walk: succeeds exactly when the source exists and nothing conflicts; then the tree is the overlay; otherwise the error names the missing source or a conflicting target, and paths outside the targets are unchanged |
| FileMerge.FileSystem.MergeFiles | docker_executor/merger.go:264-293 | succeeds exactly when every walk applies in order, leaving the full overlay; a failure stops at the first failing directory, and the later directories are not walked |
| FileMerge.SucceedsPrefix | docker_executor/merger.go:288-290 | a merge that fails at one directory fails as a whole |
| Docker.ReplayAppend | docker_executor/docker.go:177-442 | applying two command lists in sequence is applying their concatenation |
| Docker.NoFailures | docker_executor/docker.go:243-279 | no errors exactly when the daemon accepted every command; never more errors than commands |
| Docker.AcceptedAppend | docker_executor/docker.go:243-279 | a concatenation is accepted exactly when both parts are |
| Docker.Chain | docker_executor/docker.go:177-229 | a step chain never sends more commands than it has |
| Docker.ChainSound | docker_executor/docker.go:177-229 | a chain succeeds exactly when every command is accepted, and then sends them all; otherwise it stops right after the first refusal and returns it |
| Docker.ChainSkip | docker_executor/docker.go:177-229 | a chain whose first commands are accepted continues with the rest |
| Docker.ChainStops | docker_executor/docker.go:177-229 | after accepted commands, the first refusal ends the chain with that refusal, having sent one command more |
| Docker.ChainPasses | docker_executor/docker.go:177-229 | a chain whose every command is accepted passes and sends them all |
| Docker.DecodeAllSound | docker_executor/docker.go:43-67 | decoding a list succeeds exactly when every name decodes, pointwise; otherwise it fails with the first error |
| Docker.DecodeAllStops | docker_executor/docker.go:56-66 | after the first failure, later names do not matter |
| Docker.PartitionFails | docker_executor/docker.go:160-174 | the split into running and stopped fails exactly when some trimmed name does not decode, with the first such error |
| Docker.PartitionLists | docker_executor/docker.go:160-174 | every decoded name lands in exactly one list: the running list holds the running containers' names, in order, and the stopped list all the others |
| Docker.PartitionSizes | docker_executor/docker.go:160-174 | the two lists together hold one name per listed container |
| Docker.PartitionSide | docker_executor/docker.go:160-174 | each list is the decoded names of exactly the containers whose running flag selects it, in order |
| Docker.PartitionStops | docker_executor/docker.go:163-166 | an undecodable name fails the whole listing with no partial result |
| Docker.LatestZero | docker_executor/docker.go:128-144 | with no image created after time 0, the running maximum is the zero image |
| Docker.LatestSound | docker_executor/docker.go:128-144 | when some image was created after time 0, the running maximum is the first image with the greatest creation time |
| Docker.LatestNext | docker_executor/docker.go:128-144 | one more image replaces the newest so far exactly when it was created strictly later; otherwise the earlier pick stays |
| Docker.EnforceNetworkSound | docker_executor/docker.go:368-409 | an existing network sends nothing; after a successful call the network exists; a second call sends nothing and succeeds |
| Docker.ContainerRemovalsClear | docker_executor/docker.go:231-279 | once every removal is accepted, no remaining container carries a removed name, none is new, and images, volumes and networks are untouched |
| Docker.ContainerRemoveEffect | docker_executor/docker.go:231-241 | an accepted removal leaves no container of that name and touches nothing else |
| Docker.VolumeRemovalsClear | docker_executor/docker.go:290-326 | once every removal is accepted, no remaining volume has a removed name, none is new, and images, containers and networks are untouched |
| Docker.VolumeRemoveEffect | docker_executor/docker.go:290-326 | an accepted volume removal leaves no volume of that name and touches nothing else |
| Docker.PullsDecode | docker_executor/docker.go:69-116 | the `i`-th pull names a string that decodes back to the `i`-th image |
| Docker.DockerClient.Send | docker_executor/docker.go:177-442 | one command: its answer, logged, applied if accepted |
| Docker.DockerClient.SendAll | docker_executor/docker.go:243-279 | every command sent in order; the errors of exactly the refused ones |
| Docker.DockerClient.RunChain | docker_executor/docker.go:177-229 | the commands sent in order until the first refusal; the chain's outcome |
| Docker.DockerClient.ListImages | docker_executor/docker.go:43-67 | the listing is the tags of the labelled images decoded in order, or the first error |
| Docker.DockerClient.ListContainer | docker_executor/docker.go:147-175 | the listing is the labelled containers' names split into running and stopped, or the first error |
| Docker.DockerClient.ListVolumes | docker_executor/docker.go:411-430 | the listing is the labelled volumes' names decoded, or the first error |
| Docker.DockerClient.GetCoordinatorImage | docker_executor/docker.go:118-145 | the first tag of the newest coordinator image, or no-coordinator-image |
| Docker.DockerClient.CyanPrintNetworkExist | docker_executor/docker.go:368-379 | whether a network named `cyanprint` exists, or the listing error |
| Docker.DockerClient.EnforceNetwork | docker_executor/docker.go:391-409 | creates the `cyanprint` bridge network only when it is absent |
| Docker.DockerClient.CreateContainer | docker_executor/docker.go:177-197 | create then start, with no mounts, labelled `cyanprint.dev=true` on the `cyanprint` network, stopping at the first refusal |
| Docker.DockerClient.CreateContainerWithVolume | docker_executor/docker.go:199-229 | as above, with the volume mounted read-write at `/workspace/cyanprint` |
| Docker.DockerClient.CreateContainerWithReadWriteVolume | docker_executor/docker.go:328-366 | as above, with the read volume read-only at `/workspace/cyanprint` and the write volume read-write at `/workspace/area` |
| Docker.DockerClient.WaitContainer | docker_executor/docker.go:26-41 | one wait command and its answer |
| Docker.DockerClient.RemoveContainer | docker_executor/docker.go:231-241 | one removal and its answer |
| Docker.DockerClient.RemoveAllContainers | docker_executor/docker.go:243-279 | every container removed; the errors of exactly the refused removals, none for an empty input |
| Docker.DockerClient.CreateVolume | docker_executor/docker.go:432-442 | one labelled volume creation and its answer |
| Docker.DockerClient.RemoveAllVolumes | docker_executor/docker.go:290-326 | every volume removed; the errors of exactly the refused removals, none for an empty input |
| Docker.DockerClient.PullImages | docker_executor/docker.go:69-116 | every image pulled; the errors of exactly the refused pulls |
| Readiness.FirstReadySound | docker_executor/executor.go:265-294 | the first ready attempt is within the budget, answers 200, and no earlier attempt does; there is none exactly when no attempt answers 200 |
| Readiness.FirstReadyStable | docker_executor/executor.go:265-294 | once an attempt has answered 200, a larger budget finds the same first one |
| Readiness.ReadinessSound | docker_executor/executor.go:265-294 | the intended poll succeeds exactly when some attempt within the budget answers 200, otherwise reports the budget; it never polls more than the budget |
| Readiness.NeverUpTimesOut | docker_executor/executor.go:265-294 | with a container that never answers, the intended poll times out after all 60 attempts |
| Readiness.StatusCheck | docker_executor/executor.go:265-294 | as written: polls up to the first 200 or the whole budget, and always reports success |
| Readiness.WaitReady | docker_executor/template_executor.go:251-280 | the corrected poll: the same polls, and a timeout error once the budget is spent |
| SessionExecutor.MissingIsFilter | docker_executor/executor.go:18-37 | the missing images are the wanted ones, in template order, filtered by absence from the listing |
| SessionExecutor.MissingSound | docker_executor/executor.go:39-58 | at most one per entry; an image is missing exactly when some entry wants it and it is not listed; with an empty listing, every entry is missing |
| SessionExecutor.MissingImages | docker_executor/executor.go:18-37 | the loop with its `found` flag computes the missing images |
| SessionExecutor.ContainersVolumesSound | docker_executor/executor.go:211-263 | the intended listing succeeds exactly when both listings do, and then holds every container, running before stopped, and every volume |
| SessionExecutor.VolumeListingFailureHangs | docker_executor/executor.go:239-250 | with the volume listing refused, the code as written blocks forever, while the intended listing returns the error |
| SessionExecutor.SessionSelection | docker_executor/executor.go:297-314 | `Clean` selects exactly the listed containers and volumes of the session |
| SessionExecutor.CleanSound | docker_executor/executor.go:296-325 | a failed listing removes nothing and reports one error; otherwise no error exactly when every removal was accepted; volumes are removed only after every container removal went through |
| SessionExecutor.WarmPullsSound | docker_executor/executor.go:395-397 | `Warm` pulls exactly the wanted plugin and processor images that are not listed, plugins first |
| SessionExecutor.WarmErrorsSound | docker_executor/executor.go:403-449 | no error exactly when every pull and the volume creation were accepted; otherwise the errors of one branch |
| SessionExecutor.MergerOutcomeSound | docker_executor/executor.go:60-90 | the merger starts exactly when the coordinator image is found and both commands are accepted; the readiness poll does not affect the result |
| SessionExecutor.SelectContainers | docker_executor/executor.go:305-309 | the first loop of `Clean` selects the session's containers in order |
| SessionExecutor.SelectVolumes | docker_executor/executor.go:310-314 | the second loop selects the session's volumes in order |
| SessionExecutor.Executor.MissingPluginsImages | docker_executor/executor.go:18-37 | the plugins' missing images |
| SessionExecutor.Executor.MissingProcessorImages | docker_executor/executor.go:39-58 | the processors' missing images |
| SessionExecutor.Executor.ListContainersVolumes | docker_executor/executor.go:211-263 | the intended listing of containers and volumes |
| SessionExecutor.Executor.Clean | docker_executor/executor.go:296-325 | the errors, commands and new daemon state of `Clean` |
| SessionExecutor.Executor.CleanListed | docker_executor/executor.go:305-323 | after the listings: the container removals, then the volume removals only if every container removal went through; errors, log and daemon as `CleanErrors` and `CleanCommands` say |
| SessionExecutor.Executor.Warm | docker_executor/executor.go:384-450 | a failed image listing returns the session, an empty volume and one error, and changes nothing; otherwise the session volume, the errors of the branch that reported first, and exactly the pulls and the volume creation |
| SessionExecutor.Executor.PullMissing | docker_executor/executor.go:403-418 | pulls only when some image is missing |
| SessionExecutor.Executor.CreateVolume | docker_executor/executor.go:421-436 | the session volume's creation and its error |
| SessionExecutor.Executor.StartMerger | docker_executor/executor.go:60-90 | the coordinator lookup, then the merger container on both volumes; a failed readiness poll is ignored |
| TemplateWarmer.MissingTemplateContainer | docker_executor/template_executor.go:15-30 | missing exactly when no listed container has type `template` and the template's id; the reference returned is always `{id, "template", ""}` |
| TemplateWarmer.MissingTemplateVolume | docker_executor/template_executor.go:32-44 | missing exactly when no listed volume has the template's id, whatever its session; the reference returned is `{id, ""}` |
| TemplateWarmer.MissingImage | docker_executor/template_executor.go:46-72 | missing exactly when no listed image's reference is a suffix of the wanted reference with an equal tag |
| TemplateWarmer.MatchesSuffix | docker_executor/template_executor.go:46-72 | an image listed without its registry prefix is not missing |
| TemplateWarmer.BranchErrors | docker_executor/template_executor.go:85-126 | each listing branch reports nothing exactly when its listing succeeded and, for containers, every stopped container was removed |
| TemplateWarmer.FirstErrorsNone | docker_executor/template_executor.go:128-143 | the errors returned are those of the first branch to report some, in arrival order |
| TemplateWarmer.FirstErrorsSound | docker_executor/template_executor.go:128-143 | whatever the arrival order, the listing fails exactly when some branch reports an error, and then with one failing branch's errors |
| TemplateWarmer.StartBothSound | docker_executor/template_executor.go:205-249 | a branch runs only when its resource is missing; at most one error per branch that runs, none when neither runs; no error exactly when every branch that runs is accepted throughout |
| TemplateWarmer.ChainAppend | docker_executor/template_executor.go:160-203 | running one step chain and then another, if the first went through, is running their concatenation |
| TemplateWarmer.VolumeStepsCreateFails | docker_executor/template_executor.go:163-166 | a refused volume creation stops `startVolume` after that one command |
| TemplateWarmer.VolumeStepsStartFails | docker_executor/template_executor.go:181-185 | a refused creation or start of the unzip container stops `startVolume` there |
| TemplateWarmer.VolumeStepsStarted | docker_executor/template_executor.go:188-202 | once the unzip container runs, it is waited for and, if the wait went through, removed |
| TemplateWarmer.TemplatePullsSound | docker_executor/template_executor.go:318-324 | an image is pulled exactly when it is the template image or the blob image and no listed image matches it; one pull per missing image, the template image first; nothing when both are present |
| TemplateWarmer.AfterListingPullFails | docker_executor/template_executor.go:325-328 | a refused pull starts nothing and returns the pull errors |
| TemplateWarmer.AfterListingSound | docker_executor/template_executor.go:318-346 | success exactly when every pull and every step of what was started was accepted and the template container answered on port 5550 within 60 attempts |
| TemplateWarmer.AfterListingNothingMissing | docker_executor/template_executor.go:329-332 | with the container and the volume present, nothing is started |
| TemplateWarmer.WarmTemplateListingFails | docker_executor/template_executor.go:286-290 | a listing error returns errors before any pull or start, whatever the arrival order |
| TemplateWarmer.TemplateExecutor.ListContainersVolumesImages | docker_executor/template_executor.go:74-144 | the errors of the first failing branch in arrival order, else the running containers, images and volumes; the stopped containers are removed once listed |
| TemplateWarmer.TemplateExecutor.StartContainer | docker_executor/template_executor.go:146-158 | the template container, from the template image and without mounts, created then started |
| TemplateWarmer.TemplateExecutor.StartVolume | docker_executor/template_executor.go:160-203 | creates the volume, creates and starts the unzip container `{id, "volume", ""}` from the blob image, waits for it, then removes it, stopping at the first failure |
| TemplateWarmer.TemplateExecutor.RunBranch | docker_executor/template_executor.go:210-234 | one branch goroutine and its error |
| TemplateWarmer.TemplateExecutor.StartContainerAndVolume | docker_executor/template_executor.go:205-249 | the missing resources' branches in arrival order, and their errors |
| TemplateWarmer.TemplateExecutor.WarmTemplate | docker_executor/template_executor.go:282-346 | the errors, commands and new daemon state of `WarmTemplate`: listing, pulls, starts, then the corrected readiness poll |
| TemplateWarmer.TemplateExecutor.WarmListed | docker_executor/template_executor.go:293-346 | `WarmTemplate` after a successful listing |
| TemplateWarmer.TemplateExecutor.StartAndPoll | docker_executor/template_executor.go:329-345 | the start of the missing container and volume, then, if both went through, the readiness poll of the template container on port 5550 with 60 attempts |

## Left out

- `server.go` and `main.go`: HTTP handlers, request binding, the template proxy, the zip
  streaming and CLI wiring are I/O.
- The Docker SDK, `http.Get`, `PostJSON`, `uuid.NewUUID` and `time.Sleep`. They become function
  parameters (`queries`, `answer`, `probe`, the registry `get` and `decode`, the POST and UUID
  functions of `MergerEnv`) or are dropped; a failure of each is a fixed function of its
  argument.
- Interleaving of concurrent branches. Goroutines run one after another, in an arrival order
  that is a parameter. Interleaved Docker commands of two branches are not modelled.
- Blocked senders left behind after the first error has been returned (goroutine leaks), and
  the semaphore leak on the error path of `execProcessors`.
- `Executor.Start`, `startProcessors` and `startPlugins`: channel fan-out of `CreateContainerWithReadWriteVolume`
  calls; the single call is modelled, the fan-out is not.
- Docker.DockerClient.PullImages: a pull that fails is recorded as an error; the dereference of a
  nil reader after a failed pull (a crash in the source) is not modelled, and an accepted pull
  does not add the image to the daemon state.
- `RemoveVolume` and `CreateNetwork` are folded into `RemoveAllVolumes` and `EnforceNetwork`.
- `getProcessorVersionLatest`/`getPluginVersionLatest` and the version fetchers are one
  function, `Registry.Fetch`, without a contract of its own; its cases appear in the lemmas
  about the scan.
- The one-argument calls of `convertProcessor`/`convertPlugin` in `merger.go` against their
  two-argument definitions: the model passes the template's allow-list explicitly.
- Image identity: the source reads a `Sha` field and `Properties.*` fields the record
  declarations do not have; an image is modelled as a (reference, tag-or-digest) pair.
- SessionExecutor.ContainersVolumes: when the volume listing fails, the source blocks for ever,
  whether or not the container listing also failed (Findings, `VolumeListingFailureHangs`); the
  model reports the container error first when both fail.
- FileMerge.FileSystem.MergeFiles: the walk order inside one directory, symbolic links, the
  umask and `MkdirAll` of missing ancestors are not modelled, and every source directory is
  assumed apart from the merge directory in `MergeLastWriteWins`. Permission and I/O errors of
  `os.Open`, `os.Create`, `io.Copy`, `os.Stat`, `os.Chmod` and `os.MkdirAll` are not modelled:
  only a missing source and a file/directory conflict fail a walk.
- Console output (`fmt.Println`) is dropped.
- Docker.DockerClient.RemoveAllContainers: the errors come back in input order; the source collects
  them from a channel in completion order, so only their multiset is the source's.
- Docker.DockerClient.RemoveAllVolumes: errors in input order, as for `RemoveAllContainers`.
- Docker.DockerClient.PullImages: errors in input order, as for `RemoveAllContainers`.
- DomainModel.ContainerNameToStruct: a `cyan-` name with fewer than 3 segments panics in the source
  (index out of range); the model returns `Err(IndexOutOfRange(name))` instead of crashing.
- DomainModel.InsertDash: the length test counts characters; Go's `len` counts bytes, so a
  32-byte string holding multi-byte characters is dashed by the source but not by the model.
- Registry.ConvertProcessor: returns the corrected resolution, not the source's; an unversioned
  processor whose scan hits a failed fetch is an error here, while the source returns the zero
  processor with no error (Findings; `ConvertProcessorAsWritten`).
- Registry.ConvertPlugin: returns the corrected resolution; where the source returns the zero
  plugin with no error, or the latest version's id when that version is not allowed, the model
  returns the scan's error or the matched id (Findings; `ConvertPluginAsWritten`).
- Pipeline.RunProcessor: resolves with the corrected `ResolveProcessor`; for an unversioned
  processor whose scan hits a failed fetch it reports the fetch error, where the source checks the
  zero processor's empty id against the template (an error unless the template lists an empty id).
- Pipeline.UnversionedAlwaysPosted: holds for the corrected `ResolveProcessor` only. When the
  scan of an unversioned processor hits a failed fetch, the source's `convertProcessor` returns
  the zero processor with no error, and the template check then stops it as not in the template
  (unless the template lists an empty id).
- Pipeline.RunProcessors: built on `RunProcessor`, with the same corrected resolution.
- Pipeline.ExecProcessors: built on `RunProcessor`, with the same corrected resolution.
- Pipeline.RunPlugins: resolves with the corrected `ResolvePlugin`; where the source would POST
  the zero plugin or the latest version's id, the model reports the error or posts the matched id.
- Pipeline.ExecPlugins: built on `RunPlugins`, with the same corrected resolution.
- Pipeline.PluginsResolveFails: stated over the corrected `ResolvePlugin`.
- Pipeline.PluginsPosted: stated over the corrected `ResolvePlugin`.
- Pipeline.MergeAndPlug: its plugin stage uses the corrected `ResolvePlugin`.
- Pipeline.Merge: both stages use the corrected resolutions.
- SessionExecutor.Executor.Clean: lists with the corrected `ContainersVolumes`; when the daemon
  refuses the volume listing, the source blocks for ever while the model returns the error
  (Findings; `VolumeListingFailureHangs`).
- TemplateWarmer.AfterListingSound: uses the corrected poll `WaitReady`; the source's
  `statusCheck` in template_executor.go:251-280 has the same unreachable timeout as the
  executor's, so as written `WarmTemplate` never reports a readiness failure.
- TemplateWarmer.TemplateExecutor.WarmTemplate: uses the corrected poll, as for `AfterListingSound`.
- TemplateWarmer.TemplateExecutor.WarmListed: uses the corrected poll, as for `AfterListingSound`.
- TemplateWarmer.TemplateExecutor.StartAndPoll: uses the corrected poll, as for `AfterListingSound`.

## Findings

| source | as written | input that shows it | evidently intended | confidence | as-written member | corrected member |
|---|---|---|---|---|---|---|
| docker_executor/registry.go:162-166 | a failed fetch during the version scan returns `e`, the nil error of the latest-version fetch | an unversioned reference whose probe of one version gets a transport error | return the probe's error `er` | not executed | Registry.ProcessorNilError | Registry.ResolveProcessor |
| docker_executor/registry.go:219-223 | the same for plugins | an unversioned plugin whose probe of one version fails | return the probe's error `er` | not executed | Registry.PluginNilError | Registry.ResolvePlugin |
| docker_executor/registry.go:228-232 | an unversioned plugin reports the latest version's id | latest plugin version not allowed by the template, an older one allowed | report the matched version's id, as for processors | not executed | Registry.PluginLatestId | Registry.ResolvePlugin |
| docker_executor/executor.go:265-294 | the error return sits under `i == maxAttempts`, unreachable inside `i < maxAttempts`, so the poll always succeeds | a container that never answers (`Readiness.NeverUp`) | report a timeout once the budget is spent | not executed | Readiness.StatusCheck | Readiness.WaitReady |
| docker_executor/executor.go:239-250 | on a failed volume listing the volume goroutine sends on the error channel, while the caller waits on the container channel and then the volume channel, never reading the error | a daemon refusing the volume listing (`SessionExecutor.VolumesDown`) | return the volume listing error | not executed | SessionExecutor.VolumeListingFailureHangs | SessionExecutor.ContainersVolumes |
