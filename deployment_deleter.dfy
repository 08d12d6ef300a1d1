/** The deployment deleter: loads the deployment state, validates the deployment manifest
    and the CPI release, installs the CPI, starts the registry, and deletes the current
    deployment. Releases extracted along the way are deleted on every exit after the state
    is loaded, and the registry is stopped on every exit after it started; neither cleanup
    changes the result. Collaborators are outcomes given as data, and everything observable
    (stage steps, collaborator calls, logged warnings) is recorded in one ordered event log. */
module DeploymentDeleter {
  import opened Common
  import opened InstallationManifest

  datatype ReleaseRef = ReleaseRef(name: string, url: string, sha1: string)

  /** The reference returned with `found == false`. */
  const EmptyReleaseRef := ReleaseRef("", "", "")

  datatype ReleaseSetManifest = ReleaseSetManifest(releases: seq<ReleaseRef>)

  /** An extracted release. */
  datatype Release = Release(name: string)

  datatype DeploymentState = DeploymentState(directorID: string)

  /** What each collaborator returns. */
  datatype Outcomes = Outcomes(
    stateExists: bool,
    load: Result<DeploymentState>,
    parseInstallation: Result<Manifest>,
    parseReleaseSet: Result<ReleaseSetManifest>,
    validateReleaseSet: Option<string>,
    validateInstallation: Option<string>,
    tarball: Result<string>,
    extract: Result<Release>,
    validateCpiRelease: Option<string>,
    newInstaller: Option<string>,
    install: Option<string>,
    startRegistry: Option<string>,
    stopRegistry: Option<string>,
    newCloud: Option<string>,
    newBlobstore: Option<string>,
    findCurrent: Result<bool>,
    delete: Option<string>,
    cleanup: Option<string>,
    deleteAll: Option<string>)

  /** An observable event: a stage step beginning or ending, a collaborator call, a warning. */
  datatype Event =
    | Began(step: string)
    | Ended(step: string)
    | StepFailed(step: string, message: string)
    | StateLoaded
    | InstallationParsed(path: string)
    | ReleaseSetParsed(path: string)
    | ReleaseSetValidated
    | InstallationValidated
    | TarballFetched(ref: ReleaseRef)
    | ReleaseExtracted(releasePath: string)
    | ReleaseAdded(release: Release)
    | CpiReleaseValidated(release: Release, jobName: string)
    | InstallerCreated
    | Installed(manifest: Manifest)
    | RegistryStarted
    | RegistryStopped
    | CloudCreated(directorID: string)
    | AgentClientCreated(directorID: string, mbus: string)
    | BlobstoreCreated(mbus: string)
    | DeploymentManagerCreated
    | CurrentFound
    | DeploymentDeleted
    | CleanedUp
    | AllReleasesDeleted
    | Warned(message: string)

  /** The event log every collaborator and stage writes to. */
  class EventLog {
    var events: seq<Event>

    constructor ()
      ensures events == []
    {
      events := [];
    }

    method Record(e: Event)
      modifies this
      ensures events == old(events) + [e]
    {
      events := events + [e];
    }
  }

  // ---------------------------------------------------------------------------------
  // Step names and messages

  const ValidatingStage := "validating"
  const ValidatingManifestStep := "Validating deployment manifest"
  const InstallingStage := "installing CPI"
  const StartingRegistryStep := "Starting registry"
  const DeletingStage := "deleting deployment"

  function ValidatingReleaseStep(name: string): string { "Validating release " + Quoted(name) }

  function MissingReleaseMessage(name: string): string
  {
    "installation release " + Quoted(name) + " must refer to a release in releases"
  }

  /** The end of a stage step, given the error its closure returned (passed on unchanged). */
  function EndStep(name: string, err: Option<string>): Event
  {
    if err.None? then Ended(name) else StepFailed(name, err.value)
  }

  /** The deferred cleanups: they log a warning on failure, and never change the result. */
  function DeleteAllEvents(o: Outcomes): seq<Event>
  {
    [AllReleasesDeleted] + if o.deleteAll.Some? then [Warned(Wrap("Deleting all extracted releases", o.deleteAll.value))] else []
  }

  function StopRegistryEvents(o: Outcomes): seq<Event>
  {
    [RegistryStopped] + if o.stopRegistry.Some? then [Warned(Wrap("Registry failed to stop", o.stopRegistry.value))] else []
  }

  // ---------------------------------------------------------------------------------
  // Finding a release by name

  /** The first release with the given name, if any. */
  function FindByName(m: ReleaseSetManifest, name: string): (r: Option<ReleaseRef>)
    ensures r.Some? <==> exists i :: 0 <= i < |m.releases| && m.releases[i].name == name
    ensures r.Some? ==> r.value.name == name
    ensures r.Some? ==> var k := FirstIndex(m.releases, (ref: ReleaseRef) => ref.name == name);
      k < |m.releases| && r.value == m.releases[k]
  {
    var k := FirstIndex(m.releases, (ref: ReleaseRef) => ref.name == name);
    if k < |m.releases| then Some(m.releases[k]) else None
  }

  // ---------------------------------------------------------------------------------
  // The specification: the events and the result of each phase

  /** What a phase leaves behind. */
  datatype Trace = Trace(events: seq<Event>, err: Option<string>)

  /** `a` then `b`, where an error in `a` returns at once. */
  function Then(a: Trace, b: Trace): Trace
  {
    if a.err.Some? then a else Trace(a.events + b.events, b.err)
  }

  /** The checks inside the "Validating deployment manifest" step, in order. */
  function ManifestChecks(o: Outcomes, path: string): Trace
  {
    var parsed := [InstallationParsed(path)];
    if o.parseInstallation.Err? then
      Trace(parsed, Some(Wrap("Parsing installation manifest " + Quoted(path), o.parseInstallation.error)))
    else if o.parseReleaseSet.Err? then
      Trace(parsed + [ReleaseSetParsed(path)],
            Some(Wrap("Parsing release set manifest " + Quoted(path), o.parseReleaseSet.error)))
    else if o.validateReleaseSet.Some? then
      Trace(parsed + [ReleaseSetParsed(path), ReleaseSetValidated],
            Some(Wrap("Validating release set manifest", o.validateReleaseSet.value)))
    else
      var checked := parsed + [ReleaseSetParsed(path), ReleaseSetValidated, InstallationValidated];
      if o.validateInstallation.Some? then
        Trace(checked, Some(Wrap("Validating installation manifest", o.validateInstallation.value)))
      else
        var name := o.parseInstallation.value.template.release;
        if FindByName(o.parseReleaseSet.value, name).None? then Trace(checked, Some(MissingReleaseMessage(name)))
        else Trace(checked, None)
  }

  /** The installation manifest as parsed (the zero value when parsing failed). */
  function ParsedManifest(o: Outcomes): Manifest
  {
    if o.parseInstallation.Ok? then o.parseInstallation.value else EmptyManifest
  }

  /** The CPI release reference the manifest's template names, once the checks passed. */
  function CpiReleaseRef(o: Outcomes): ReleaseRef
  {
    if o.parseInstallation.Err? || o.parseReleaseSet.Err? then EmptyReleaseRef
    else
      var found := FindByName(o.parseReleaseSet.value, o.parseInstallation.value.template.release);
      if found.Some? then found.value else EmptyReleaseRef
  }

  /** Inside the "Validating release" step: extract, add to the release manager, validate. */
  function ReleaseChecks(o: Outcomes, releasePath: string): Trace
  {
    if o.extract.Err? then
      Trace([ReleaseExtracted(releasePath)], Some(Wrap("Extracting release " + Quoted(releasePath), o.extract.error)))
    else
      Trace([ReleaseExtracted(releasePath), ReleaseAdded(o.extract.value),
             CpiReleaseValidated(o.extract.value, ParsedManifest(o).template.name)],
            WrapErr("Invalid CPI release " + Quoted(o.extract.value.name), o.validateCpiRelease))
  }

  /** A stage step around `inner`: it begins, runs `inner`, and ends with its error. */
  function InStep(name: string, inner: Trace): Trace
  {
    Trace([Began(name)] + inner.events + [EndStep(name, inner.err)], inner.err)
  }

  /** Fetching the release tarball, then validating the release it holds. */
  function ReleaseRun(o: Outcomes): Trace
  {
    if o.tarball.Err? then Trace([TarballFetched(CpiReleaseRef(o))], Some(o.tarball.error))
    else
      var step := InStep(ValidatingReleaseStep(CpiReleaseRef(o).name), ReleaseChecks(o, o.tarball.value));
      Trace([TarballFetched(CpiReleaseRef(o))] + step.events, step.err)
  }

  /** The "validating" stage: the manifest, the release tarball, the CPI release. */
  function ValidationRun(o: Outcomes, path: string): Trace
  {
    InStep(ValidatingStage, Then(InStep(ValidatingManifestStep, ManifestChecks(o, path)), ReleaseRun(o)))
  }

  /** Creating the installer and installing the CPI. */
  function InstallRun(o: Outcomes): Trace
  {
    if o.newInstaller.Some? then Trace([InstallerCreated], Some(Wrap("Creating CPI Installer", o.newInstaller.value)))
    else
      var install := InStep(InstallingStage, Trace([Installed(ParsedManifest(o))], o.install));
      Trace([InstallerCreated] + install.events, install.err)
  }

  function StartRegistryRun(o: Outcomes): Trace
  {
    InStep(StartingRegistryStep, Trace([RegistryStarted], o.startRegistry))
  }

  /** The "deleting deployment" stage: Delete is called only for a deployment that was found. */
  function DeletingRun(o: Outcomes): Trace
    requires o.findCurrent.Ok?
  {
    var deleted := if o.findCurrent.value then Trace([DeploymentDeleted], o.delete) else Trace([], None);
    var stage := InStep(DeletingStage, deleted);
    Trace(stage.events, WrapErr("Deleting deployment", stage.err))
  }

  /** Everything between starting and stopping the registry: clients, then the deletion. */
  function DeleteWithRegistryRun(o: Outcomes, state: DeploymentState): Trace
  {
    var mbus := ParsedManifest(o).mbus;
    if o.newCloud.Some? then
      Trace([CloudCreated(state.directorID)], Some(Wrap("Creating CPI client from CPI installation", o.newCloud.value)))
    else
      var clients := [CloudCreated(state.directorID), AgentClientCreated(state.directorID, mbus), BlobstoreCreated(mbus)];
      if o.newBlobstore.Some? then Trace(clients, Some(Wrap("Creating blobstore client", o.newBlobstore.value)))
      else
        var found := clients + [DeploymentManagerCreated, CurrentFound];
        if o.findCurrent.Err? then Trace(found, Some(Wrap("Finding current deployment", o.findCurrent.error)))
        else Then(Trace(found, None), DeleteCurrentRun(o))
  }

  /** The "deleting deployment" stage, then the deployment manager's cleanup, whose result
      is the result of the whole deletion. */
  function DeleteCurrentRun(o: Outcomes): Trace
    requires o.findCurrent.Ok?
  {
    Then(DeletingRun(o), Trace([CleanedUp], o.cleanup))
  }

  /** A phase followed by a deferred cleanup that never changes its result. */
  function WithCleanup(t: Trace, cleanup: seq<Event>): Trace
  {
    Trace(t.events + cleanup, t.err)
  }

  /** Everything after the state is loaded, before the release cleanup runs: the registry is
      stopped on every exit after it started. */
  function DeleteLoadedRun(o: Outcomes, path: string, state: DeploymentState): Trace
  {
    Then(ValidationRun(o, path), Then(InstallRun(o), RegistryRun(o, state)))
  }

  /** Starting the registry, and stopping it after everything that follows. */
  function RegistryRun(o: Outcomes, state: DeploymentState): Trace
  {
    Then(StartRegistryRun(o), WithCleanup(DeleteWithRegistryRun(o, state), StopRegistryEvents(o)))
  }

  /** DeleteDeployment as a whole. */
  function DeleteRun(o: Outcomes, path: string): Trace
  {
    if !o.stateExists then Trace([], None)
    else if o.load.Err? then Trace([StateLoaded], Some(Wrap("Loading deployment state", o.load.error)))
    else
      Then(Trace([StateLoaded], None), WithCleanup(DeleteLoadedRun(o, path, o.load.value), DeleteAllEvents(o)))
  }

  // ---------------------------------------------------------------------------------
  // The deleter

  /** Deletes the deployment whose manifest is at `path`. */
  method DeleteDeployment(log: EventLog, o: Outcomes, path: string) returns (err: Option<string>)
    modifies log
    ensures log.events == old(log.events) + DeleteRun(o, path).events
    ensures err == DeleteRun(o, path).err
  {
    if !o.stateExists {
      return None;
    }
    log.Record(StateLoaded);
    if o.load.Err? {
      return Some(Wrap("Loading deployment state", o.load.error));
    }
    ghost var loaded := log.events;
    err := DeleteLoaded(log, o, path, o.load.value);
    ghost var rest := DeleteLoadedRun(o, path, o.load.value);
    DeleteAllReleases(log, o);
    ConcatAssoc(old(log.events), [StateLoaded], rest.events, DeleteAllEvents(o));
  }

  /** The deferred release cleanup: a failure is only logged as a warning. */
  method DeleteAllReleases(log: EventLog, o: Outcomes)
    modifies log
    ensures log.events == old(log.events) + DeleteAllEvents(o)
  {
    log.Record(AllReleasesDeleted);
    if o.deleteAll.Some? {
      log.Record(Warned(Wrap("Deleting all extracted releases", o.deleteAll.value)));
    }
  }

  /** The deferred registry stop: a failure is only logged as a warning. */
  method StopRegistry(log: EventLog, o: Outcomes)
    modifies log
    ensures log.events == old(log.events) + StopRegistryEvents(o)
  {
    log.Record(RegistryStopped);
    if o.stopRegistry.Some? {
      log.Record(Warned(Wrap("Registry failed to stop", o.stopRegistry.value)));
    }
  }

  /** Starts the registry in its own step. */
  method StartRegistry(log: EventLog, o: Outcomes) returns (err: Option<string>)
    modifies log
    ensures log.events == old(log.events) + StartRegistryRun(o).events
    ensures err == StartRegistryRun(o).err
  {
    log.Record(Began(StartingRegistryStep));
    log.Record(RegistryStarted);
    log.Record(EndStep(StartingRegistryStep, o.startRegistry));
    err := o.startRegistry;
  }

  method DeleteLoaded(log: EventLog, o: Outcomes, path: string, state: DeploymentState) returns (err: Option<string>)
    modifies log
    ensures log.events == old(log.events) + DeleteLoadedRun(o, path, state).events
    ensures err == DeleteLoadedRun(o, path, state).err
  {
    var manifest;
    manifest, err := Validate(log, o, path);
    if err.Some? {
      return;
    }
    err := Install(log, o, manifest);
    if err.Some? {
      return;
    }
    err := WithRegistry(log, o, manifest, state);
    ConcatAssoc(old(log.events), ValidationRun(o, path).events, InstallRun(o).events, RegistryRun(o, state).events);
  }

  /** Starts the registry and, once it started, runs the rest and stops it again. */
  method WithRegistry(log: EventLog, o: Outcomes, manifest: Manifest, state: DeploymentState) returns (err: Option<string>)
    requires manifest == ParsedManifest(o)
    modifies log
    ensures log.events == old(log.events) + RegistryRun(o, state).events
    ensures err == RegistryRun(o, state).err
  {
    err := StartRegistry(log, o);
    if err.Some? {
      return;
    }
    err := DeleteWithRegistry(log, o, manifest, state);
    StopRegistry(log, o);
    ConcatAssoc(old(log.events), StartRegistryRun(o).events, DeleteWithRegistryRun(o, state).events, StopRegistryEvents(o));
  }

  /** The "validating" stage; returns the installation manifest once it passed. */
  method Validate(log: EventLog, o: Outcomes, path: string) returns (manifest: Manifest, err: Option<string>)
    modifies log
    ensures log.events == old(log.events) + ValidationRun(o, path).events
    ensures err == ValidationRun(o, path).err
    ensures manifest == ParsedManifest(o)
  {
    log.Record(Began(ValidatingStage));
    ghost var parse := InStep(ValidatingManifestStep, ManifestChecks(o, path));
    ghost var release := ReleaseRun(o);
    var ref;
    manifest, ref, err := ParseDeploymentManifest(log, o, path);
    if err.None? {
      err := FetchAndValidateRelease(log, o, manifest, ref);
      ConcatAssoc(old(log.events), [Began(ValidatingStage)], parse.events, release.events);
    }
    log.Record(EndStep(ValidatingStage, err));
    ConcatAssoc(old(log.events), [Began(ValidatingStage)], Then(parse, release).events, [EndStep(ValidatingStage, err)]);
  }

  /** Fetches the CPI release tarball, then extracts, adds and validates the release. */
  method FetchAndValidateRelease(log: EventLog, o: Outcomes, manifest: Manifest, ref: ReleaseRef) returns (err: Option<string>)
    requires manifest == ParsedManifest(o) && ref == CpiReleaseRef(o)
    modifies log
    ensures log.events == old(log.events) + ReleaseRun(o).events
    ensures err == ReleaseRun(o).err
  {
    log.Record(TarballFetched(ref));
    if o.tarball.Err? {
      return Some(o.tarball.error);
    }
    var releasePath := o.tarball.value;
    var step := ValidatingReleaseStep(ref.name);
    log.Record(Began(step));
    log.Record(ReleaseExtracted(releasePath));
    if o.extract.Err? {
      err := Some(Wrap("Extracting release " + Quoted(releasePath), o.extract.error));
    } else {
      var cpiRelease := o.extract.value;
      log.Record(ReleaseAdded(cpiRelease));
      log.Record(CpiReleaseValidated(cpiRelease, manifest.template.name));
      err := WrapErr("Invalid CPI release " + Quoted(cpiRelease.name), o.validateCpiRelease);
    }
    log.Record(EndStep(step, err));
  }

  /** parseDeploymentManifest: the manifest checks, in one step. */
  method ParseDeploymentManifest(log: EventLog, o: Outcomes, path: string)
    returns (manifest: Manifest, cpiRelease: ReleaseRef, err: Option<string>)
    modifies log
    ensures log.events == old(log.events) + InStep(ValidatingManifestStep, ManifestChecks(o, path)).events
    ensures err == ManifestChecks(o, path).err
    ensures manifest == ParsedManifest(o) && (err.None? ==> cpiRelease == CpiReleaseRef(o))
  {
    log.Record(Began(ValidatingManifestStep));
    manifest, cpiRelease, err := CheckManifests(log, o, path);
    log.Record(EndStep(ValidatingManifestStep, err));
  }

  /** The manifest checks, in order, each returning at the first error. */
  method CheckManifests(log: EventLog, o: Outcomes, path: string)
    returns (manifest: Manifest, cpiRelease: ReleaseRef, err: Option<string>)
    modifies log
    ensures log.events == old(log.events) + ManifestChecks(o, path).events
    ensures err == ManifestChecks(o, path).err
    ensures manifest == ParsedManifest(o) && (err.None? ==> cpiRelease == CpiReleaseRef(o))
  {
    manifest, cpiRelease := EmptyManifest, EmptyReleaseRef;
    log.Record(InstallationParsed(path));
    if o.parseInstallation.Err? {
      return manifest, cpiRelease, Some(Wrap("Parsing installation manifest " + Quoted(path), o.parseInstallation.error));
    }
    manifest := o.parseInstallation.value;
    log.Record(ReleaseSetParsed(path));
    if o.parseReleaseSet.Err? {
      return manifest, cpiRelease, Some(Wrap("Parsing release set manifest " + Quoted(path), o.parseReleaseSet.error));
    }
    var releaseSet := o.parseReleaseSet.value;
    log.Record(ReleaseSetValidated);
    if o.validateReleaseSet.Some? {
      return manifest, cpiRelease, Some(Wrap("Validating release set manifest", o.validateReleaseSet.value));
    }
    log.Record(InstallationValidated);
    if o.validateInstallation.Some? {
      return manifest, cpiRelease, Some(Wrap("Validating installation manifest", o.validateInstallation.value));
    }
    var found := FindByName(releaseSet, manifest.template.release);
    if found.None? {
      return manifest, cpiRelease, Some(MissingReleaseMessage(manifest.template.release));
    }
    return manifest, found.value, None;
  }

  /** Creates the installer and installs the CPI in the "installing CPI" stage. */
  method Install(log: EventLog, o: Outcomes, manifest: Manifest) returns (err: Option<string>)
    requires manifest == ParsedManifest(o)
    modifies log
    ensures log.events == old(log.events) + InstallRun(o).events
    ensures err == InstallRun(o).err
  {
    log.Record(InstallerCreated);
    if o.newInstaller.Some? {
      return Some(Wrap("Creating CPI Installer", o.newInstaller.value));
    }
    log.Record(Began(InstallingStage));
    log.Record(Installed(manifest));
    log.Record(EndStep(InstallingStage, o.install));
    err := o.install;
  }

  /** Creates the clients, finds the current deployment, deletes it, and cleans up. */
  method DeleteWithRegistry(log: EventLog, o: Outcomes, manifest: Manifest, state: DeploymentState) returns (err: Option<string>)
    requires manifest == ParsedManifest(o)
    modifies log
    ensures log.events == old(log.events) + DeleteWithRegistryRun(o, state).events
    ensures err == DeleteWithRegistryRun(o, state).err
  {
    log.Record(CloudCreated(state.directorID));
    if o.newCloud.Some? {
      return Some(Wrap("Creating CPI client from CPI installation", o.newCloud.value));
    }
    log.Record(AgentClientCreated(state.directorID, manifest.mbus));
    log.Record(BlobstoreCreated(manifest.mbus));
    if o.newBlobstore.Some? {
      return Some(Wrap("Creating blobstore client", o.newBlobstore.value));
    }
    log.Record(DeploymentManagerCreated);
    log.Record(CurrentFound);
    if o.findCurrent.Err? {
      return Some(Wrap("Finding current deployment", o.findCurrent.error));
    }
    ghost var events1 := log.events;
    ghost var found := [CloudCreated(state.directorID), AgentClientCreated(state.directorID, manifest.mbus),
                        BlobstoreCreated(manifest.mbus), DeploymentManagerCreated, CurrentFound];
    assert events1 == old(log.events) + found;
    err := DeleteCurrent(log, o);
    ghost var current := DeleteCurrentRun(o);
    assert DeleteWithRegistryRun(o, state) == Trace(found + current.events, current.err);
    assert old(log.events) + found + current.events == old(log.events) + (found + current.events);
  }

  /** Deletes the current deployment, if one was found, then cleans up. */
  method DeleteCurrent(log: EventLog, o: Outcomes) returns (err: Option<string>)
    requires o.findCurrent.Ok?
    modifies log
    ensures log.events == old(log.events) + DeleteCurrentRun(o).events
    ensures err == DeleteCurrentRun(o).err
  {
    log.Record(Began(DeletingStage));
    var deleteErr: Option<string> := None;
    if o.findCurrent.value {
      log.Record(DeploymentDeleted);
      deleteErr := o.delete;
    }
    log.Record(EndStep(DeletingStage, deleteErr));
    if deleteErr.Some? {
      return Some(Wrap("Deleting deployment", deleteErr.value));
    }
    log.Record(CleanedUp);
    err := o.cleanup;
  }
}
