# bosh-init core, modelled in Dafny

bosh-init creates and deletes single-VM BOSH deployments (a director) from the operator's
workstation. This project models its sequencing and error-reporting logic: which steps run, in
what order, which failures abort a run, what is reported for each step, and what is cleaned up
on the way out. It then proves properties of that model. Every collaborator is an outcome
oracle: a record of "succeeds" or "fails with message m", given as data. This covers the cloud
(CPI), the agent, the file system, the YAML decoder, the UUID generator and the SSH tunnel.

Modules, one per core file:

- `Common`: options and results, and bosh-agent's error wrapping (`"<context>: <cause>"`). It also
  has first-index search and counting over sequences, and small sequence lemmas.
- `EventLog`: a UI stage with its steps (the test fake `FakeStage`). A step is Started and then
  Finished or Failed, and a Failed step carries the message.
- `VMDeployer` and `VMDeployerProperties`: `Deploy` and `WaitUntilReady`, as fixed by
  `deployer/vm_deployer_test.go`.
  - Wait for the existing VM's agent. This check is never fatal.
  - Stop each job.
  - List the disks and unmount each one.
  - Delete the old VM, create the new one and promote the stemcell.
  - For `WaitUntilReady`: start the SSH tunnel (only for non-empty options), then wait for the
    agent.

  The methods append to a `Stage` and to a call trace (`Collaborators`), step by step. Their
  contracts tie the new state to specification functions (`DeployRun`, `WaitUntilReadyRun`, …),
  and the properties module proves the test's claims about those functions.
- `DeploymentDeleter` and `DeploymentDeleterProperties`: `DeleteDeployment` and
  `parseDeploymentManifest`. This is an ordered pipeline of early returns with two deferred
  cleanups: "delete all releases" and "stop the registry". Each action is recorded as an event in
  an `EventLog` object, and stage steps appear as Began, Ended and StepFailed events. Deferred
  cleanups are recorded after the helper they guard returns, in last-in first-out order.
- `InstallationManifest`: `HasSSHTunnel` and the post-decoding half of `parser.Parse`:
  - private-key path expansion with fallback;
  - copying the fields;
  - the property map;
  - filling in the registry when a tunnel is configured.
- `DeployCmd`: `Name`, `parseCmdInputs`, `isBlank` (over Go's `unicode.IsSpace`) and the check
  order of `Run`.
- `DevicePathResolver`: the virtio resolver's fallback from the ID resolver to the mapped
  resolver, and its timeout rule.
- `FakeAgentClient`: the agent-client test double. It is a class whose fields are those of the
  Go struct: scripted Ping and GetState queues, call counters, Called flags, last CIDs and
  configured errors. Each method's contract states the whole new state.
- `FakeTimeService`: the fake time service, which hands out the configured times in order.
- `JobListRenderer`: all-or-nothing rendering of a release job list. Jobs are rendered in input
  order. When one fails, every job already rendered is deleted silently.

## Model

| member | source | states |
|---|---|---|
| Common.Wrap | deployer/vm_deployer_test.go:221 | a wrapped error is the context, ": ", then the cause, so it contains the cause |
| Common.WrapErr | cmd/deployment_deleter.go:206-208 | no error stays no error, and an error is wrapped with the context |
| Common.WrapContainsCause | deployer/vm_deployer_test.go:210-213 | the cause's text is a substring of every error wrapped around it |
| EventLog.Stage.Start | deployer/vm_deployer_test.go:119-126 | a new step named as given is appended in state Started; earlier steps are unchanged |
| EventLog.Stage.Finish | deployer/vm_deployer_test.go:119-126 | the open last step moves to Finished; no other step changes |
| EventLog.Stage.Fail | deployer/vm_deployer_test.go:215-222 | the open last step moves to Failed with the message; no other step changes |
| EventLog.Stage.End | deployer/vm_deployer_test.go:254-265 | the open last step is Finished when there is no error, and otherwise Failed with the error's text |
| VMDeployer.Deploy | deployer/vm_deployer_test.go:86-347 | the steps, the collaborator calls and the error are exactly those of `DeployRun`; a VM is returned exactly when there is no error, and it is the one the manager created |
| VMDeployer.CreateFromStemcell | deployer/vm_deployer_test.go:291-345 | the create step, then Create with the given stemcell and deployment, then one promotion only after a successful create; a failure is "Creating VM: <err>" |
| VMDeployer.DeleteExisting | deployer/vm_deployer_test.go:95-289 | wait, then stop, unmount and delete, as `TeardownRun`; the wait's failure is reported but does not stop the teardown |
| VMDeployer.StopAndDelete | deployer/vm_deployer_test.go:165-287 | stop, list disks, unmount, delete; the first failure ends the run |
| VMDeployer.UnmountAndDelete | deployer/vm_deployer_test.go:172-287 | the disks are unmounted in order, and the VM is deleted only if every unmount succeeded |
| VMDeployer.StopJobs | deployer/vm_deployer_test.go:165-223 | one "Stopping '<job>'" step and one Stop call per job, in order, until the first failure, which is reported as "Stopping VM: <err>" |
| VMDeployer.UnmountDisks | deployer/vm_deployer_test.go:172-245 | one "Unmounting disk '<cid>'" step and one call per listed disk, in listed order, up to and including the first failing disk |
| VMDeployer.WaitUntilReady | deployer/vm_deployer_test.go:349-437 | the tunnel is created and started only for non-empty options, and its error is returned as is; then the wait step runs with a 10 min timeout and a 500 ms delay |
| VMDeployer.Collaborators.WaitToBeReady | deployer/vm_deployer_test.go:95-104 | the wait is logged with the VM's CID, the timeout and the delay, and returns the VM double's configured wait error |
| VMDeployer.Collaborators.Stop | deployer/vm_deployer_test.go:165-224 | the stop is logged with the VM's CID and returns the configured stop error |
| VMDeployer.Collaborators.ListDisks | deployer/vm_deployer_test.go:172-203 | the listing is logged and returns exactly the configured disks |
| VMDeployer.Collaborators.UnmountDisk | deployer/vm_deployer_test.go:172-246 | the unmount is logged with the VM and disk CIDs and returns the error configured for that disk, or none |
| VMDeployer.Collaborators.Delete | deployer/vm_deployer_test.go:106-287 | the delete is logged with the VM's CID and returns the configured delete error |
| VMDeployer.Collaborators.Create | deployer/vm_deployer_test.go:291-345 | the create is logged with exactly the stemcell and deployment given, and returns the manager's configured VM or error |
| VMDeployer.Collaborators.PromoteAsCurrent | deployer/vm_deployer_test.go:301-306 | the promotion is logged with the stemcell's CID |
| VMDeployer.Collaborators.StartTunnel | deployer/vm_deployer_test.go:356-415 | the tunnel's creation with exactly the given options and its start are logged, and the configured start error is returned |
| VMDeployer.FirstFailingDiskAt | deployer/vm_deployer_test.go:226-245 | the first failing disk is the one before which no unmount fails and at which one does |
| VMDeployer.Sequenced | deployer/vm_deployer_test.go:114-148 | running a succeeding part and then the rest leaves the trace of the two composed |
| VMDeployerProperties.TeardownWhenAllSucceed | deployer/vm_deployer_test.go:106-203 | when nothing fails, the teardown is wait, one step per job, one step per disk in order, then delete, with the matching calls and no error |
| VMDeployerProperties.TeardownReachesDelete | deployer/vm_deployer_test.go:269-287 | when stopping and unmounting succeed, the teardown reaches the delete step, and the delete's outcome is the teardown's |
| VMDeployerProperties.ExistingVMAllSucceed | deployer/vm_deployer_test.go:106-148 | with an existing VM and every collaborator succeeding, every step is Finished and the calls end with delete, create and promote |
| VMDeployerProperties.ExistingVMScenario | deployer/vm_deployer_test.go:114-148 | with one job and no disks the step log is exactly the four named steps, each [Started, Finished] |
| VMDeployerProperties.PreDeleteWaitParameters | deployer/vm_deployer_test.go:95-103 | the first call waits for the existing VM's agent with a 10 s timeout and a 500 ms delay |
| VMDeployerProperties.UnreachableAgentIsNotFatal | deployer/vm_deployer_test.go:249-266 | an unreachable agent makes the wait step Failed with "Agent unreachable: <err>"; everything else (later steps, calls, result) is the same as with a responsive agent |
| VMDeployerProperties.TeardownIgnoresWait | deployer/vm_deployer_test.go:249-266 | what follows the pre-delete wait does not depend on the wait's outcome |
| VMDeployerProperties.StopFailureIsFatal | deployer/vm_deployer_test.go:205-224 | a failing stop returns "Stopping VM: <err>", which contains the cause, after exactly two steps; the VM is not unmounted, deleted or replaced |
| VMDeployerProperties.UnmountFailureIsFatal | deployer/vm_deployer_test.go:226-246 | the first failing unmount returns "Unmounting disk '<disk>' from VM '<vm>': <err>", and its step is the last, Failed with that message; later disks are not touched |
| VMDeployerProperties.DeleteFailureIsFatal | deployer/vm_deployer_test.go:269-288 | a failing delete returns "Deleting VM: <err>"; its step is the last, Failed with that message, and nothing is created |
| VMDeployerProperties.ExistingVMDeletedOnce | deployer/vm_deployer_test.go:106-112 | the existing VM is deleted exactly once when stopping and unmounting succeed, and never otherwise |
| VMDeployerProperties.TeardownCallsWhenReached | deployer/vm_deployer_test.go:165-203 | when stop and unmount succeed, the calls are wait, stops, list, unmounts and one delete, in that order |
| VMDeployerProperties.TeardownCallsWhenAborted | deployer/vm_deployer_test.go:205-246 | when a stop or an unmount fails, the teardown fails and nothing is deleted |
| VMDeployerProperties.SuccessPromotesStemcellOnce | deployer/vm_deployer_test.go:301-306 | a successful deploy promotes the stemcell exactly once, right after the create |
| VMDeployerProperties.CreatesFromGivenStemcell | deployer/vm_deployer_test.go:291-299 | every create call receives exactly the given stemcell and deployment |
| VMDeployerProperties.DeployCallsBeforeCreate | deployer/vm_deployer_test.go:291-306 | the calls are a prefix free of create and promote, followed by the create phase |
| VMDeployerProperties.TeardownNeverCreates | deployer/vm_deployer_test.go:86-289 | tearing the old VM down never creates or promotes anything |
| VMDeployerProperties.CreateFailureIsFatal | deployer/vm_deployer_test.go:322-345 | a failing create returns an error and never promotes; once the teardown is through, the error is "Creating VM: <err>" and the last step is Failed with it |
| VMDeployerProperties.NoCurrentVMOnlyCreates | deployer/vm_deployer_test.go:291-320 | without a current VM there is a single step, "Creating VM from stemcell '<cid>'", and only create and promote calls |
| VMDeployerProperties.TunnelOnlyForNonEmptyOptions | deployer/vm_deployer_test.go:356-403 | the tunnel is started if and only if the options are non-empty, and it is created with exactly the given options |
| VMDeployerProperties.TunnelStartFailure | deployer/vm_deployer_test.go:405-415 | a tunnel start error is returned unchanged, before any wait step |
| VMDeployerProperties.PostCreateWait | deployer/vm_deployer_test.go:371-435 | the post-create wait uses a 10 min timeout and a 500 ms delay, and is the only step; a failure is "Waiting for the vm to be ready: <err>" and is returned |
| DeploymentDeleter.EventLog.Record | cmd/deployment_deleter.go:88-211 | an event is appended; earlier events are unchanged |
| DeploymentDeleter.FindByName | cmd/deployment_deleter.go:243-249 | a release is found if and only if one has that name, and the one found is the first with that name |
| DeploymentDeleter.DeleteDeployment | cmd/deployment_deleter.go:88-211 | the events and the result are exactly those of `DeleteRun` |
| DeploymentDeleter.DeleteAllReleases | cmd/deployment_deleter.go:101-106 | the release cleanup runs, and its failure only adds the warning "Deleting all extracted releases: <err>" |
| DeploymentDeleter.StopRegistry | cmd/deployment_deleter.go:165-171 | the registry stops, and its failure only adds the warning "Registry failed to stop: <err>" |
| DeploymentDeleter.StartRegistry | cmd/deployment_deleter.go:159-164 | the "Starting registry" step, ended with the start error |
| DeploymentDeleter.DeleteLoaded | cmd/deployment_deleter.go:108-209 | validation, then installation, then the registry part, each aborting on error, as `DeleteLoadedRun` |
| DeploymentDeleter.WithRegistry | cmd/deployment_deleter.go:159-209 | once the registry has started, it is stopped on every exit |
| DeploymentDeleter.Validate | cmd/deployment_deleter.go:108-143 | the "validating" stage: the manifest checks, the tarball fetch and the release step, in order; the parsed manifest is returned |
| DeploymentDeleter.FetchAndValidateRelease | cmd/deployment_deleter.go:118-137 | fetch the tarball, then in the "Validating release '<name>'" step extract, add to the release manager, and validate the CPI release |
| DeploymentDeleter.ParseDeploymentManifest | cmd/deployment_deleter.go:213-254 | the "Validating deployment manifest" step around the manifest checks; the CPI release is returned once the checks pass |
| DeploymentDeleter.CheckManifests | cmd/deployment_deleter.go:222-252 | parse installation, parse release set, validate the release set, validate the installation, find the CPI release, in that order, each error wrapped as written |
| DeploymentDeleter.Install | cmd/deployment_deleter.go:145-157 | create the installer (wrapped "Creating CPI Installer"), then the "installing CPI" stage |
| DeploymentDeleter.DeleteWithRegistry | cmd/deployment_deleter.go:173-209 | the cloud, agent, blobstore and deployment manager clients, the current-deployment lookup, then the deletion, each error wrapped as written |
| DeploymentDeleter.DeleteCurrent | cmd/deployment_deleter.go:197-210 | the "deleting deployment" stage calls Delete only when a deployment was found; its failure is wrapped "Deleting deployment", and otherwise Cleanup's result is returned |
| DeploymentDeleterProperties.NoStateFileDoesNothing | cmd/deployment_deleter.go:91-94 | without a state file nothing happens and the result is no error |
| DeploymentDeleterProperties.LoadFailure | cmd/deployment_deleter.go:96-99 | a load failure returns "Loading deployment state: <err>" before any release cleanup is registered |
| DeploymentDeleterProperties.ValidationPassesIff | cmd/deployment_deleter.go:108-252 | validation succeeds if and only if every manifest check passes, the CPI release is found, fetched and extracted, and it validates |
| DeploymentDeleterProperties.ThenAbsent | cmd/deployment_deleter.go:141-143 | an event in neither phase is absent from their composition |
| DeploymentDeleterProperties.InStepAbsent | cmd/deployment_deleter.go:109-140 | an event that is not in the step's body or its begin and end markers is absent from the step |
| DeploymentDeleterProperties.ValidationAbsent | cmd/deployment_deleter.go:108-143 | no cleanup, registry, deletion or cleanup-result event happens during validation |
| DeploymentDeleterProperties.ManifestStepAbsent | cmd/deployment_deleter.go:222-252 | the same, for the "Validating deployment manifest" step |
| DeploymentDeleterProperties.ReleaseRunAbsent | cmd/deployment_deleter.go:118-137 | the same, for fetching and validating the release |
| DeploymentDeleterProperties.InstallAbsent | cmd/deployment_deleter.go:145-157 | the same, for installing the CPI |
| DeploymentDeleterProperties.DeleteWithRegistryAbsent | cmd/deployment_deleter.go:173-210 | the release cleanup, the registry stop and the registry start are not part of the client and deletion phase |
| DeploymentDeleterProperties.LoadedShape | cmd/deployment_deleter.go:96-106 | after a successful load, the events are the load, everything else, and the release cleanup last; the result is that of everything else |
| DeploymentDeleterProperties.StartedShape | cmd/deployment_deleter.go:159-171 | once the registry started, its stop follows the client and deletion phase, and the result is that phase's |
| DeploymentDeleterProperties.LoadedAbsent | cmd/deployment_deleter.go:108-209 | an event absent from every phase that was reached is absent from the whole |
| DeploymentDeleterProperties.NoReleaseCleanupBefore | cmd/deployment_deleter.go:101-106 | the release cleanup never runs before the deferred call |
| DeploymentDeleterProperties.ReleasesDeletedOnceAtTheEnd | cmd/deployment_deleter.go:101-106 | after a successful load, the releases are deleted exactly once, as the last thing, and this does not change the result |
| DeploymentDeleterProperties.DeleteLoadedIgnoresCleanups | cmd/deployment_deleter.go:101-171 | the result does not depend on how the two cleanups went |
| DeploymentDeleterProperties.ResultIgnoresCleanups | cmd/deployment_deleter.go:101-171 | the same, for the whole deletion |
| DeploymentDeleterProperties.ReleaseCleanupWarning | cmd/deployment_deleter.go:102-105 | a failed release cleanup is logged as the warning "Deleting all extracted releases: <err>", as the last event |
| DeploymentDeleterProperties.ReleaseCleanupNeverChangesResult | cmd/deployment_deleter.go:101-106 | a failing release cleanup gives the same result as a succeeding one, and only adds the warning at the end |
| DeploymentDeleterProperties.RegistryStoppedIffStarted | cmd/deployment_deleter.go:159-171 | the registry is stopped if and only if the "Starting registry" step succeeded, and then its stop comes last |
| DeploymentDeleterProperties.RegistryStopNeverChangesResult | cmd/deployment_deleter.go:165-171 | a failing registry stop gives the same result as a succeeding one |
| DeploymentDeleterProperties.ManifestChecksInOrder | cmd/deployment_deleter.go:222-252 | the checks happen as a prefix of parse installation, parse release set, validate the release set, validate the installation; stopping short means an error, and success means the CPI release was found |
| DeploymentDeleterProperties.MissingCpiRelease | cmd/deployment_deleter.go:243-249 | a release set without the named release gives "installation release '<name>' must refer to a release in releases" |
| DeploymentDeleterProperties.MissingReleaseMessageText | cmd/deployment_deleter.go:248 | the text of the missing-release error |
| DeploymentDeleterProperties.ReleaseAddedBeforeValidation | cmd/deployment_deleter.go:124-134 | the extracted release is added to the release manager before its validation, so it is added even when validation fails with "Invalid CPI release '<name>': <err>" |
| DeploymentDeleterProperties.DeletionShape | cmd/deployment_deleter.go:173-210 | with every client created and the lookup done, the clients come first, then the deletion, whose result is returned |
| DeploymentDeleterProperties.DeletionReachedShape | cmd/deployment_deleter.go:96-211 | once deletion is reached, the events are everything before it, the deletion, the registry stop and the release cleanup, in that order |
| DeploymentDeleterProperties.BeforeDeletionAbsent | cmd/deployment_deleter.go:88-195 | neither the delete nor the cleanup happens before the deletion stage |
| DeploymentDeleterProperties.NothingFoundNothingDeleted | cmd/deployment_deleter.go:197-210 | when no deployment is found, the deletion stage succeeds without calling Delete, and Cleanup's result is returned |
| DeploymentDeleterProperties.DeleteFailure | cmd/deployment_deleter.go:204-208 | a failing Delete makes the stage fail and returns "Deleting deployment: <err>"; Cleanup is not called |
| DeploymentDeleterProperties.CleanupDecidesResult | cmd/deployment_deleter.go:206-210 | Cleanup is called if and only if deletion is reached and the deletion stage succeeds, and then its result is the function's result |
| DeploymentDeleterProperties.CleanupWithRegistry | cmd/deployment_deleter.go:173-210 | Cleanup is called if and only if every client was created, the lookup succeeded, and the deletion succeeded |
| DeploymentDeleterProperties.DeleteCurrentCleanup | cmd/deployment_deleter.go:197-210 | inside the deletion phase, Cleanup runs exactly when the stage succeeds, and then decides the result |
| DeploymentDeleterProperties.CleanupNotReached | cmd/deployment_deleter.go:108-195 | Cleanup is never called when an earlier phase fails |
| InstallationManifest.HasSSHTunnel | installation/manifest/parser.go:37-39 | true if and only if some field of the tunnel differs from its zero value |
| InstallationManifest.ExpandedTunnel | installation/manifest/parser.go:68-75 | only the private key changes; an empty key is not expanded, and a key that cannot be expanded is kept |
| InstallationManifest.Parse | installation/manifest/parser.go:55-101 | read errors and decode errors come with an empty manifest and their wrapped messages; the key is expanded only when set; name, template and mbus are copied; a property failure comes with an empty manifest; a password is generated and the registry set to ("registry", <password>, "127.0.0.1", 6901, <tunnel>) if and only if a tunnel is configured; a generation failure is "Generating registry password: <err>" |
| DeployCmd.Name | cmd/deploy_cmd.go:39-41 | the command's name is "deploy" |
| DeployCmd.ParseCmdInputs | cmd/deploy_cmd.go:74-80 | succeeds if and only if there is exactly one argument, and returns it; otherwise "Invalid usage - deploy command requires exactly 1 argument" |
| DeployCmd.TrimLeftSpace | cmd/deploy_cmd.go:83 | a suffix of the input whose removed prefix is all white space and which does not start with white space |
| DeployCmd.TrimRightSpace | cmd/deploy_cmd.go:83 | a prefix of the input whose removed suffix is all white space and which does not end with white space |
| DeployCmd.IsSpace | cmd/deploy_cmd.go:83 | Go's `unicode.IsSpace`: the ASCII tab, newline, vertical tab, form feed, carriage return and space are white space, and no ASCII letter or digit is |
| DeployCmd.TrimSpace | cmd/deploy_cmd.go:83 | Go's `strings.TrimSpace`: the result is empty if and only if every character is white space; otherwise it neither starts nor ends with white space |
| DeployCmd.IsBlank | cmd/deploy_cmd.go:82-84 | a string is blank if and only if every character is white space (the empty string included) |
| DeployCmd.Run | cmd/deploy_cmd.go:51-72 | an argument error comes before any path or file-system call; a path error is wrapped "Getting absolute path to deployment file '<path>'"; a missing manifest gives "Deployment manifest does not exist at '<abs>'" without building the preparer; otherwise the preparer gets the absolute path and its result is returned unchanged |
| DevicePathResolver.GetRealDevicePath | Godeps/_workspace/src/github.com/cloudfoundry/bosh-agent/infrastructure/devicepathresolver/virtio_device_path_resolver.go:29-51 | ID success gives its path, no timeout and no error; otherwise the mapped resolver decides, and its failure gives "", its timeout flag and "Resolving mapped device path: <err>"; success never reports a timeout |
| DevicePathResolver.MappedUnusedAfterIDSuccess | Godeps/_workspace/src/github.com/cloudfoundry/bosh-agent/infrastructure/devicepathresolver/virtio_device_path_resolver.go:30-34 | after an ID success, the mapped resolver makes no difference |
| DevicePathResolver.MappedAskedAboutSameDisk | Godeps/_workspace/src/github.com/cloudfoundry/bosh-agent/infrastructure/devicepathresolver/virtio_device_path_resolver.go:45 | the mapped resolver's answer for these same disk settings is all that matters |
| DevicePathResolver.IDTimeoutNeverReported | Godeps/_workspace/src/github.com/cloudfoundry/bosh-agent/infrastructure/devicepathresolver/virtio_device_path_resolver.go:30-50 | the ID resolver's timeout flag never reaches the caller |
| DevicePathResolver.ErrorCarriesMappedCause | Godeps/_workspace/src/github.com/cloudfoundry/bosh-agent/infrastructure/devicepathresolver/virtio_device_path_resolver.go:46-48 | every error comes from a failing mapped resolver and contains its message |
| FakeAgentClient.FakeAgentClient.constructor | deployment/agentclient/fakes/fake_agent_client.go:53-57 | nothing scripted, nothing called, no errors configured |
| FakeAgentClient.FakeAgentClient.Ping | deployment/agentclient/fakes/fake_agent_client.go:59-69 | the count goes up by one; a non-empty queue serves and drops its head, and an empty one answers ("", no error) and stays empty; nothing else changes |
| FakeAgentClient.FakeAgentClient.Stop | deployment/agentclient/fakes/fake_agent_client.go:71-74 | sets StopCalled and returns the configured error; nothing else changes |
| FakeAgentClient.FakeAgentClient.Apply | deployment/agentclient/fakes/fake_agent_client.go:76-80 | records the apply spec and returns the configured error |
| FakeAgentClient.FakeAgentClient.Start | deployment/agentclient/fakes/fake_agent_client.go:82-85 | sets StartCalled and returns the configured error; nothing else changes |
| FakeAgentClient.FakeAgentClient.GetState | deployment/agentclient/fakes/fake_agent_client.go:87-94 | needs a non-empty queue; serves and drops its head and counts the call |
| FakeAgentClient.FakeAgentClient.ListDisk | deployment/agentclient/fakes/fake_agent_client.go:96-99 | sets ListDiskCalled and returns exactly the configured disks and error |
| FakeAgentClient.FakeAgentClient.MountDisk | deployment/agentclient/fakes/fake_agent_client.go:101-105 | records only the latest CID and returns the configured error |
| FakeAgentClient.FakeAgentClient.UnmountDisk | deployment/agentclient/fakes/fake_agent_client.go:107-110 | records only the latest CID and returns the configured error |
| FakeAgentClient.FakeAgentClient.MigrateDisk | deployment/agentclient/fakes/fake_agent_client.go:112-115 | the count goes up by one and the configured error is returned |
| FakeAgentClient.FakeAgentClient.CompilePackage | deployment/agentclient/fakes/fake_agent_client.go:117-125 | always the empty blob reference and no error |
| FakeAgentClient.FakeAgentClient.SetPingBehavior | deployment/agentclient/fakes/fake_agent_client.go:127-132 | the response is appended at the tail of the queue |
| FakeAgentClient.FakeAgentClient.SetStopBehavior | deployment/agentclient/fakes/fake_agent_client.go:134-136 | only the stop error changes |
| FakeAgentClient.FakeAgentClient.SetStartBehavior | deployment/agentclient/fakes/fake_agent_client.go:138-140 | only the start error changes |
| FakeAgentClient.FakeAgentClient.SetGetStateBehavior | deployment/agentclient/fakes/fake_agent_client.go:142-147 | the output is appended at the tail of the queue |
| FakeAgentClient.FakeAgentClient.SetMountDiskBehavior | deployment/agentclient/fakes/fake_agent_client.go:149-151 | only the mount error changes |
| FakeAgentClient.FakeAgentClient.SetUnmountDiskBehavior | deployment/agentclient/fakes/fake_agent_client.go:153-155 | only the unmount error changes |
| FakeAgentClient.FakeAgentClient.SetMigrateDiskBehavior | deployment/agentclient/fakes/fake_agent_client.go:157-159 | only the migrate error changes |
| FakeAgentClient.FakeAgentClient.SetListDiskBehavior | deployment/agentclient/fakes/fake_agent_client.go:161-164 | only the configured disks and list error change |
| FakeAgentClient.ScriptedPings | deployment/agentclient/fakes/fake_agent_client.go:59-132 | scripted responses come back first in, first out, then the empty response; every call is counted |
| FakeAgentClient.ScriptedStates | deployment/agentclient/fakes/fake_agent_client.go:87-147 | scripted outputs come back first in, first out; every call is counted |
| FakeAgentClient.LatestDiskCIDs | deployment/agentclient/fakes/fake_agent_client.go:101-110 | a second mount or unmount overwrites the first CID |
| FakeTimeService.FakeService.Now | time/fakes/fake_service.go:11-16 | needs a configured time; returns the head, and the queue becomes its tail, one shorter |
| FakeTimeService.NowInOrder | time/fakes/fake_service.go:11-16 | successive calls return the configured times in order, until none is left |
| JobListRenderer.FirstFailure | templatescompiler/job_list_renderer_test.go:91-101 | every job before the index renders, and the job at the index (when there is one) fails |
| JobListRenderer.DeleteSilently | templatescompiler/job_list_renderer_test.go:96-97 | every rendered job is deleted silently, in order |
| JobListRenderer.Render | templatescompiler/job_list_renderer_test.go:76-101 | each job is rendered with the same job properties, global properties and deployment name, in input order; on success the rendered jobs are in input order; on the first failure nothing later is rendered, every job rendered before it is deleted, and the error wraps the renderer's message |
| JobListRenderer.AllRenderIffNoFailure | templatescompiler/job_list_renderer_test.go:82-101 | the first failure is past the end if and only if every job renders |
| JobListRenderer.RenderErrorCarriesCause | templatescompiler/job_list_renderer_test.go:99-101 | the returned error contains the renderer's message |

## Left out

- The implementation file of the VM deployer is not part of this model. Its behaviour is taken
  from `deployer/vm_deployer_test.go`. The test does not decide the following, and the model
  assumes it:
  - after a failed pre-delete wait, stop, unmount and delete still run;
  - there is one "Stopping '<job>'" step and one Stop call per deployment job (the test has
    one job).
- VMDeployer.Collaborators.UnmountDisk: the VM double's error for unmounting is a map from disk
  CID to error. This generalises the test fake's single `UnmountDiskErr`, which fails every
  disk; the fake's behaviour is the map that sends every listed disk to the same error.
- VMDeployer.Deploy: the errors of FindCurrent, ListDisks and stemcell promotion are not
  modelled. The test never makes them fail.
- Real time in readiness polling is left out: sleeps, retries and the timeout itself. The
  timeout and delay are passed to the wait as values in milliseconds (10 s = 10000,
  10 min = 600000, 500 ms).
- The UI stage implementation is not part of this model. A stage is assumed to record the
  closure's error as the step's failure message and to return that error unchanged.
- UI and logger output (`PrintLinef`, `ErrorLinef`, `Debug`, `Warn`) is left out. The
  deleter's warnings for failed deferred cleanups are kept as `Warned` events, to show that
  those failures are only logged.
- The tarball provider's own stages and the `releaseManager.Add` bookkeeping are single events.
  The release set and installation validators, the CPI release validator, the installer, the
  cloud, blobstore and agent-client factories and `FindCurrent` are outcome oracles.
- `SSHTunnel`, `DiskSettings`, `AgentState`, `ApplySpec`, `BlobRef` and `bireljob.Job` are not
  part of this model. Their fields are stand-ins: only those the logic looks at, or an opaque
  text.
- YAML decoding, `biproperty.BuildMap`, `fs.ExpandPath`, `filepath.Abs`, `fs.FileExists`, UUID
  generation and `PopulateRegistry` are parameters. The registry record holds
  `PopulateRegistry`'s arguments. `%#v` rendering of the raw properties is a parameter
  (`goSyntax`).
- Strings are sequences of characters, not UTF-8 bytes. `isBlank` classifies white space by
  Go's `unicode.IsSpace` table, written out.
- `deployCmd.Meta` (usage text) is left out, because it is constant data with no logic.
- main.go, stemcell/extractor_test.go and deployment/disk/manager_factory.go are left out. They
  are process plumbing and one-line pass-throughs.
- JobListRenderer.Render: the implementation is not part of this model. The test promises only
  that the error contains the renderer's message. The context "Rendering templates for job
  '<name>'" is an assumption, and the rendered list returned with an error is assumed empty.
- FakeTimeService.FakeService.Now: times are an integer count, not Go `time.Time`. Only their
  order matters.
